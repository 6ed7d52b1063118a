/** The shutdown seal of the telemetry client: terminal events of connection opens and
    connections, exactly once across every interleaving with `close_connections`
    (src/core/telemetry.rs).

    Any number of threads record events, finish opens and close connections while any number
    of closers run. One atomic operation, or one section under a lock, is one step; memory is
    sequentially consistent. An event is offered when its recording begins and, in a later
    step, accepted by the bounded journal or dropped; which of the two is left open here and
    decided in module TelemetryJournal. The recording of an Opened event happens under the
    connections lock; letting other threads in between only adds runs. */
module ShutdownSeal {
  import opened Basics
  import opened MapSums
  import opened Runs

  datatype Event = Opened(open: nat) | OpenFailed(open: nat) | ConnectionClosed(conn: nat) | Other(id: nat)

  /** What an event is the terminal event of. */
  datatype Key = OpenKey(open: nat) | ConnKey(conn: nat)

  function KeyOf(e: Event): Option<Key> {
    match e
    case Opened(o) => Some(OpenKey(o))
    case OpenFailed(o) => Some(OpenKey(o))
    case ConnectionClosed(c) => Some(ConnKey(c))
    case Other(_) => None
  }

  /** What a producer thread is doing. FinishOpen is `failed` or the drop of an open handle. */
  datatype Op = Record(id: nat) | Open(open: nat) | FinishOpen(open: nat) | CloseConnection(conn: nat)

  datatype Thread =
    | Idle
    | Entering(op: Op)     // closed was seen false; the producer count is next
    | Rechecking(op: Op)   // counted; closed is read again next
    | Producing(op: Op)    // counted and admitted
    | Offering(e: Event)   // has claimed the right to offer e
    | Sending(e: Event)    // has offered e; the journal takes or drops it next
    | Leaving              // the count is decremented next

  datatype Phase =
    | NotStarted
    | Waiting              // has sealed; waits for the producer count
    | Finishing
    | Claiming(e: Event)   // has claimed the right to offer e
    | Forwarding(e: Event) // has offered e; the journal takes or drops it next
    | Returned

  /** A `close_connections` call with the opens and connections it took over. */
  datatype Closer = Closer(phase: Phase, opens: set<nat>, conns: set<nat>)

  /** A connection: its closed flag, whether its handle is still held somewhere, and the open
      that it came from. */
  datatype Conn = Conn(closed: bool, alive: bool, open: nat)

  /** History: the call that sealed first, and the connections alive then. */
  datatype Seal = Seal(sealer: nat, alive: set<nat>)

  /** `opens` maps an open to its finished flag; `registered` remembers the opens made
      before the seal; `log` and `accepted` are the offered and the accepted events. */
  datatype State = State(
    closed: bool,
    active: nat,
    pending: set<nat>,
    connections: set<nat>,
    opens: map<nat, bool>,
    registered: set<nat>,
    conns: map<nat, Conn>,
    threads: map<nat, Thread>,
    closers: map<nat, Closer>,
    log: seq<Event>,
    accepted: seq<Event>,
    seal: Option<Seal>)

  datatype Step =
    | NewOpen(open: nat)
    | Begin(t: nat, op: Op)
    | FetchAdd(t: nat)
    | Recheck(t: nat)
    | Work(t: nat, newConn: nat)
    | Offer(t: nat)
    | Send(t: nat, accept: bool)
    | Leave(t: nat)
    | DropHandle(conn: nat)
    | SealAll(k: nat)
    | PassWait(k: nat)
    | ClaimOpen(k: nat, open: nat)
    | ClaimConn(k: nat, conn: nat)
    | OfferClaim(k: nat)
    | Forward(k: nat, accept: bool)
    | Return(k: nat)

  predicate HasTarget(s: State, op: Op) {
    match op
    case Record(_) => true
    case Open(o) => o in s.opens
    case FinishOpen(o) => o in s.opens
    case CloseConnection(c) => c in s.conns && s.conns[c].alive
  }

  predicate InPhase(s: State, k: nat, phase: Phase) { k in s.closers && s.closers[k].phase == phase }

  predicate Enabled(s: State, step: Step) {
    match step
    case NewOpen(o) => o !in s.opens
    case Begin(t, op) => t in s.threads && s.threads[t].Idle? && HasTarget(s, op)
    case FetchAdd(t) => t in s.threads && s.threads[t].Entering?
    case Recheck(t) => t in s.threads && s.threads[t].Rechecking?
    case Work(t, newConn) => t in s.threads && s.threads[t].Producing? && newConn !in s.conns
    case Offer(t) => t in s.threads && s.threads[t].Offering?
    case Send(t, _) => t in s.threads && s.threads[t].Sending?
    case Leave(t) => t in s.threads && s.threads[t].Leaving?
    case DropHandle(c) => c in s.conns
    case SealAll(k) => InPhase(s, k, NotStarted)
    case PassWait(k) => InPhase(s, k, Waiting) && s.active == 0
    case ClaimOpen(k, o) => InPhase(s, k, Finishing) && o in s.closers[k].opens
    case ClaimConn(k, c) => InPhase(s, k, Finishing) && s.closers[k].opens == {} && c in s.closers[k].conns
    case OfferClaim(k) => k in s.closers && s.closers[k].phase.Claiming?
    case Forward(k, _) => k in s.closers && s.closers[k].phase.Forwarding?
    case Return(k) => InPhase(s, k, Finishing) && s.closers[k].opens == {} && s.closers[k].conns == {}
  }

  function WithThread(s: State, t: nat, thread: Thread): State { s.(threads := s.threads[t := thread]) }

  function WithCloser(s: State, k: nat, closer: Closer): State { s.(closers := s.closers[k := closer]) }

  predicate Finished(s: State, o: nat) { o in s.opens && s.opens[o] }

  predicate MarkedClosed(s: State, c: nat) { c in s.conns && s.conns[c].closed }

  function Unfinished(s: State, opens: set<nat>): set<nat> { set o | o in opens && !Finished(s, o) }

  function Alive(s: State): set<nat> { set c | c in s.conns && s.conns[c].alive }

  function MarkClosed(s: State, c: nat): State
    requires c in s.conns
  {
    s.(conns := s.conns[c := s.conns[c].(closed := true)])
  }

  /** `connection_open`, under the pending lock. */
  function RegisterOpen(s: State, o: nat): State {
    if s.closed then s.(pending := Unfinished(s, s.pending), opens := s.opens[o := true])
    else s.(pending := Unfinished(s, s.pending) + {o},
            opens := s.opens[o := false],
            registered := s.registered + {o})
  }

  /** What an admitted producer does, and where it goes: `opened_connection` is one section under
      the connections lock; the others swap their flag first and offer afterwards. */
  function Effect(s: State, op: Op, newConn: nat): (State, Thread) {
    match op
    case Record(id) => (s.(log := s.log + [Other(id)]), Sending(Other(id)))
    case Open(o) =>
      if s.closed || Finished(s, o) then (s, Leaving)
      else (s.(opens := s.opens[o := true],
               conns := s.conns[newConn := Conn(false, true, o)],
               connections := s.connections * Alive(s) + {newConn},
               log := s.log + [Opened(o)]), Sending(Opened(o)))
    case FinishOpen(o) =>
      if Finished(s, o) then (s, Leaving) else (s.(opens := s.opens[o := true]), Offering(OpenFailed(o)))
    case CloseConnection(c) =>
      if MarkedClosed(s, c) || c !in s.conns then (s, Leaving)
      else (MarkClosed(s, c), Offering(ConnectionClosed(c)))
  }

  function DoWork(s: State, t: nat, newConn: nat): State
    requires Enabled(s, Work(t, newConn))
  {
    var (u, thread) := Effect(s, s.threads[t].op, newConn);
    WithThread(u, t, thread)
  }

  /** Both registries are taken over and the flag is set, under both locks. */
  function DoSeal(s: State, k: nat): State {
    WithCloser(s.(closed := true, pending := {}, connections := {},
                  seal := if s.seal.Some? then s.seal else Some(Seal(k, Alive(s)))),
               k, Closer(Waiting, s.pending, s.connections * Alive(s)))
  }

  function DoClaimOpen(s: State, k: nat, o: nat): State
    requires Enabled(s, ClaimOpen(k, o))
  {
    var closer := s.closers[k].(opens := s.closers[k].opens - {o});
    if Finished(s, o) then WithCloser(s, k, closer)
    else WithCloser(s.(opens := s.opens[o := true]), k, closer.(phase := Claiming(OpenFailed(o))))
  }

  function DoClaimConn(s: State, k: nat, c: nat): State
    requires Enabled(s, ClaimConn(k, c))
  {
    var closer := s.closers[k].(conns := s.closers[k].conns - {c});
    if MarkedClosed(s, c) || c !in s.conns then WithCloser(s, k, closer)
    else WithCloser(MarkClosed(s, c), k, closer.(phase := Claiming(ConnectionClosed(c))))
  }

  /** The journal takes the event or drops it. */
  function Take(s: State, e: Event, accept: bool): State {
    s.(accepted := s.accepted + if accept then [e] else [])
  }

  function Apply(s: State, step: Step): State
    requires Enabled(s, step)
  {
    match step
    case NewOpen(o) => RegisterOpen(s, o)
    case Begin(t, op) => if s.closed then s else WithThread(s, t, Entering(op))
    case FetchAdd(t) => WithThread(s.(active := s.active + 1), t, Rechecking(s.threads[t].op))
    case Recheck(t) => WithThread(s, t, if s.closed then Leaving else Producing(s.threads[t].op))
    case Work(t, newConn) => DoWork(s, t, newConn)
    case Offer(t) => WithThread(s.(log := s.log + [s.threads[t].e]), t, Sending(s.threads[t].e))
    case Send(t, accept) => WithThread(Take(s, s.threads[t].e, accept), t, Leaving)
    case Leave(t) => WithThread(s.(active := if s.active == 0 then 0 else s.active - 1), t, Idle)
    case DropHandle(c) => s.(conns := s.conns[c := s.conns[c].(alive := false)])
    case SealAll(k) => DoSeal(s, k)
    case PassWait(k) => WithCloser(s, k, s.closers[k].(phase := Finishing))
    case ClaimOpen(k, o) => DoClaimOpen(s, k, o)
    case ClaimConn(k, c) => DoClaimConn(s, k, c)
    case OfferClaim(k) =>
      WithCloser(s.(log := s.log + [s.closers[k].phase.e]), k, s.closers[k].(phase := Forwarding(s.closers[k].phase.e)))
    case Forward(k, accept) =>
      WithCloser(Take(s, s.closers[k].phase.e, accept), k, s.closers[k].(phase := Finishing))
    case Return(k) => WithCloser(s, k, s.closers[k].(phase := Returned))
  }

  // ----- Runs -----

  ghost predicate Init(s: State) {
    && !s.closed && s.active == 0 && s.pending == {} && s.connections == {}
    && s.opens == map[] && s.registered == {} && s.conns == map[]
    && (forall t :: t in s.threads ==> s.threads[t] == Idle)
    && (forall k :: k in s.closers ==> s.closers[k] == Closer(NotStarted, {}, {}))
    && s.log == [] && s.accepted == [] && s.seal == None
  }

  ghost predicate Successor(s: State, t: State) {
    exists step :: Enabled(s, step) && t == Apply(s, step)
  }

  // ----- The producer count -----

  function Counted(thread: Thread): nat { if thread.Idle? || thread.Entering? then 0 else 1 }

  predicate Working(thread: Thread) { thread.Producing? || thread.Offering? || thread.Sending? }

  predicate PastWait(closer: Closer) {
    closer.phase.Finishing? || closer.phase.Claiming? || closer.phase.Forwarding? || closer.phase.Returned?
  }

  /** The count is the number of threads past their increment; once some closer has seen it
      at zero, no thread is or becomes admitted. */
  ghost predicate CountOk(s: State) {
    && s.active == Sum(s.threads, Counted)
    && (forall k, t | k in s.closers && PastWait(s.closers[k]) && t in s.threads :: !Working(s.threads[t]))
    && (forall k :: k in s.closers && !s.closers[k].phase.NotStarted? ==> s.closed)
  }

  lemma ZeroMeansNone(s: State, t: nat)
    requires s.active == Sum(s.threads, Counted) && s.active == 0 && t in s.threads
    ensures !Working(s.threads[t])
  {
    SumAtLeast(s.threads, Counted, t);
  }

  predicate OfThread(step: Step) {
    step.Begin? || step.FetchAdd? || step.Recheck? || step.Work? || step.Offer? || step.Send? || step.Leave?
  }

  /** A thread step moves one thread, moves the count with it, and admits only before the seal. */
  predicate ThreadMove(s: State, u: State, t: nat) {
    && t in s.threads && t in u.threads
    && u.threads == s.threads[t := u.threads[t]]
    && u.closers == s.closers && u.closed == s.closed && u.seal == s.seal
    && u.active + Counted(s.threads[t]) == s.active + Counted(u.threads[t])
    && (Working(u.threads[t]) ==> Working(s.threads[t]) || !s.closed)
  }

  lemma EffectLeaves(s: State, op: Op, newConn: nat)
    ensures var (u, thread) := Effect(s, op, newConn);
            && u.threads == s.threads && u.closers == s.closers && u.closed == s.closed && u.seal == s.seal
            && u.active == s.active && u.accepted == s.accepted
            && u.registered == s.registered && u.pending == s.pending
            && Counted(thread) == 1 && !thread.Rechecking? && !thread.Producing?
  {
  }

  lemma WorkMoves(s: State, t: nat, newConn: nat)
    requires Enabled(s, Work(t, newConn))
    ensures ThreadMove(s, DoWork(s, t, newConn), t)
  {
    EffectLeaves(s, s.threads[t].op, newConn);
  }

  lemma ThreadStepMoves(s: State, step: Step)
    requires CountOk(s) && Enabled(s, step) && OfThread(step)
    ensures ThreadMove(s, Apply(s, step), step.t)
  {
    if step.Work? {
      WorkMoves(s, step.t, step.newConn);
    } else {
      SumAtLeast(s.threads, Counted, step.t);
      assert s.threads[step.t := s.threads[step.t]] == s.threads;
    }
  }

  lemma ThreadMoveCount(s: State, u: State, t: nat)
    requires CountOk(s) && ThreadMove(s, u, t)
    ensures CountOk(u)
  {
    SumUpdate(s.threads, Counted, t, u.threads[t]);
  }

  lemma CloserStepCount(s: State, step: Step)
    requires CountOk(s) && Enabled(s, step) && !OfThread(step)
    ensures CountOk(Apply(s, step))
  {
    assert Apply(s, step).threads == s.threads;
    if step.PassWait? {
      forall t | t in s.threads ensures !Working(s.threads[t]) {
        ZeroMeansNone(s, t);
      }
    }
  }

  lemma StepCount(s: State, step: Step)
    requires CountOk(s) && Enabled(s, step)
    ensures CountOk(Apply(s, step))
  {
    if OfThread(step) {
      ThreadStepMoves(s, step);
      ThreadMoveCount(s, Apply(s, step), step.t);
    } else {
      CloserStepCount(s, step);
    }
  }

  // ----- The registries -----

  /** Flags and handles only grow: the part of a step that other owners may rely on. */
  ghost predicate Grows(s: State, u: State) {
    && s.opens.Keys <= u.opens.Keys && s.conns.Keys <= u.conns.Keys
    && (forall o :: Finished(s, o) ==> Finished(u, o))
    && (forall c :: MarkedClosed(s, c) ==> MarkedClosed(u, c))
  }

  ghost predicate TargetsOk(s: State) {
    forall t :: t in s.threads ==> ThreadTargetOk(s, s.threads[t])
  }

  predicate ThreadTargetOk(s: State, thread: Thread) {
    match thread
    case Entering(op) => OpTargetOk(s, op)
    case Rechecking(op) => OpTargetOk(s, op)
    case Producing(op) => OpTargetOk(s, op)
    case _ => true
  }

  predicate OpTargetOk(s: State, op: Op) {
    match op
    case Record(_) => true
    case Open(o) => o in s.opens
    case FinishOpen(o) => o in s.opens
    case CloseConnection(c) => c in s.conns
  }

  /** Before the seal every unfinished registered open is pending, and an open that was never
      registered was finished from the start. */
  ghost predicate OpensOk(s: State) {
    && s.registered <= s.opens.Keys
    && (forall o :: o in s.opens && o !in s.registered ==> s.opens[o])
    && s.pending <= s.registered
    && (!s.closed ==> Unfinished(s, s.registered) <= s.pending)
    && (s.closed ==> s.pending == {})
  }

  /** Before the seal every connection with a live handle is registered. */
  ghost predicate ConnsOk(s: State) {
    && s.connections <= s.conns.Keys
    && (!s.closed ==> Alive(s) <= s.connections)
    && (s.closed ==> s.connections == {})
  }

  /** In the middle of offering or handing over an event. */
  predicate Busy(closer: Closer) { closer.phase.Claiming? || closer.phase.Forwarding? }

  predicate Empty(closer: Closer) { closer.opens == {} && closer.conns == {} && !Busy(closer) }

  /** Everything the sealing call still has to finish is in its hands; no other call holds
      anything. */
  ghost predicate SealerOk(s: State, seal: Seal) {
    && seal.sealer in s.closers
    && var closer := s.closers[seal.sealer];
       && !closer.phase.NotStarted?
       && (closer.phase.Returned? ==> closer.opens == {} && closer.conns == {})
       && closer.opens <= s.registered && closer.conns <= s.conns.Keys
       && (forall o :: o in s.registered ==> Finished(s, o) || o in closer.opens)
       && (forall c :: c in seal.alive ==> MarkedClosed(s, c) || c in closer.conns)
  }

  ghost predicate ClosersOk(s: State) {
    && (s.seal.Some? <==> s.closed)
    && (s.seal.Some? ==> SealerOk(s, s.seal.value))
    && (forall k :: k in s.closers && s.seal.None? ==> s.closers[k].phase.NotStarted?)
    && (forall k :: k in s.closers && !(s.seal.Some? && k == s.seal.value.sealer) ==> Empty(s.closers[k]))
  }

  ghost predicate RegistriesOk(s: State) { TargetsOk(s) && OpensOk(s) && ConnsOk(s) && ClosersOk(s) }

  // Thread steps.

  lemma WorkGrows(s: State, t: nat, newConn: nat)
    requires Enabled(s, Work(t, newConn)) && TargetsOk(s)
    ensures var u := DoWork(s, t, newConn);
            && Grows(s, u)
            && u.opens.Keys == s.opens.Keys && u.registered == s.registered && u.pending == s.pending
            && !u.threads[t].Entering? && !u.threads[t].Rechecking? && !u.threads[t].Producing?
  {
    EffectLeaves(s, s.threads[t].op, newConn);
    assert ThreadTargetOk(s, s.threads[t]);
  }

  lemma WorkConns(s: State, t: nat, newConn: nat)
    requires Enabled(s, Work(t, newConn)) && TargetsOk(s) && ConnsOk(s)
    ensures ConnsOk(DoWork(s, t, newConn))
  {
    assert ThreadTargetOk(s, s.threads[t]);
  }

  /** What every thread step leaves alone. */
  lemma ThreadStepGrows(s: State, step: Step)
    requires Enabled(s, step) && OfThread(step) && RegistriesOk(s)
    ensures var u := Apply(s, step);
            && Grows(s, u)
            && u.opens.Keys == s.opens.Keys && u.registered == s.registered && u.pending == s.pending
            && ThreadTargetOk(u, u.threads[step.t])
            && ConnsOk(u)
  {
    assert ThreadTargetOk(s, s.threads[step.t]);
    if step.Work? {
      WorkGrows(s, step.t, step.newConn);
      WorkConns(s, step.t, step.newConn);
    }
  }

  lemma TargetsGrow(s: State, u: State, t: nat)
    requires TargetsOk(s) && Grows(s, u) && ThreadMove(s, u, t) && ThreadTargetOk(u, u.threads[t])
    ensures TargetsOk(u)
  {
    forall r | r in u.threads ensures ThreadTargetOk(u, u.threads[r]) {
      assert r == t || ThreadTargetOk(s, s.threads[r]);
    }
  }

  lemma ClosersGrow(s: State, u: State)
    requires ClosersOk(s) && Grows(s, u)
    requires u.closers == s.closers && u.closed == s.closed && u.seal == s.seal && u.registered == s.registered
    ensures ClosersOk(u)
  {
  }

  lemma ThreadStepRegistries(s: State, step: Step)
    requires CountOk(s) && RegistriesOk(s) && Enabled(s, step) && OfThread(step)
    ensures RegistriesOk(Apply(s, step))
  {
    var u := Apply(s, step);
    ThreadStepMoves(s, step);
    ThreadStepGrows(s, step);
    TargetsGrow(s, u, step.t);
    ClosersGrow(s, u);
    OpensGrow(s, u);
  }

  lemma OpensGrow(s: State, u: State)
    requires OpensOk(s) && Grows(s, u) && u.opens.Keys == s.opens.Keys && u.closed == s.closed
    requires u.registered == s.registered && u.pending == s.pending
    ensures OpensOk(u)
  {
    forall o | o in u.opens && o !in u.registered ensures u.opens[o] {
      assert Finished(s, o);
    }
  }

  // Steps of opens, handles and closers.

  lemma NewOpenRegistries(s: State, o: nat)
    requires RegistriesOk(s) && Enabled(s, NewOpen(o))
    ensures RegistriesOk(Apply(s, NewOpen(o)))
  {
    var u := RegisterOpen(s, o);
    assert Grows(s, u);
    forall t | t in u.threads ensures ThreadTargetOk(u, u.threads[t]) {
      assert ThreadTargetOk(s, s.threads[t]);
    }
  }

  lemma DropHandleRegistries(s: State, c: nat)
    requires RegistriesOk(s) && Enabled(s, DropHandle(c))
    ensures RegistriesOk(Apply(s, DropHandle(c)))
  {
    var u := Apply(s, DropHandle(c));
    assert Grows(s, u) && Alive(u) <= Alive(s);
    forall t | t in u.threads ensures ThreadTargetOk(u, u.threads[t]) {
      assert ThreadTargetOk(s, s.threads[t]);
    }
    ClosersGrow(s, u);
  }

  lemma SealRegistries(s: State, k: nat)
    requires RegistriesOk(s) && Enabled(s, SealAll(k))
    ensures RegistriesOk(Apply(s, SealAll(k)))
  {
    var u := DoSeal(s, k);
    forall t | t in u.threads ensures ThreadTargetOk(u, u.threads[t]) {
      assert ThreadTargetOk(s, s.threads[t]);
    }
    if s.seal.None? {
      assert SealerOk(u, u.seal.value) by {
        forall o | o in u.registered ensures Finished(u, o) || o in u.closers[k].opens {
          assert Finished(s, o) || o in Unfinished(s, s.registered);
        }
      }
    }
  }

  /** A closer that gives up only what is finished keeps the accounts of the closers. */
  lemma CloserMoveRegistries(s: State, u: State, k: nat)
    requires RegistriesOk(s) && Grows(s, u) && k in s.closers && k in u.closers && s.seal.Some?
    requires u.closers == s.closers[k := u.closers[k]] && u.threads == s.threads
    requires u.closed == s.closed && u.seal == s.seal && u.registered == s.registered
    requires u.pending == s.pending && u.connections == s.connections && u.opens.Keys == s.opens.Keys
    requires u.conns.Keys == s.conns.Keys && Alive(u) == Alive(s)
    requires u.closers[k].opens <= s.closers[k].opens && u.closers[k].conns <= s.closers[k].conns
    requires forall o :: o in s.closers[k].opens - u.closers[k].opens ==> Finished(u, o)
    requires forall c :: c in s.closers[k].conns - u.closers[k].conns ==> MarkedClosed(u, c)
    requires !u.closers[k].phase.NotStarted?
    requires Busy(u.closers[k]) ==> !Empty(s.closers[k])
    requires u.closers[k].phase.Returned? ==> u.closers[k].opens == {} && u.closers[k].conns == {}
    ensures RegistriesOk(u)
  {
    forall t | t in u.threads ensures ThreadTargetOk(u, u.threads[t]) {
      assert ThreadTargetOk(s, s.threads[t]);
    }
    OpensGrow(s, u);
  }

  lemma ClaimOpenRegistries(s: State, k: nat, o: nat)
    requires RegistriesOk(s) && Enabled(s, ClaimOpen(k, o))
    ensures RegistriesOk(Apply(s, ClaimOpen(k, o)))
  {
    var u := DoClaimOpen(s, k, o);
    assert o in s.registered;
    assert s.closers[k := u.closers[k]] == u.closers;
    CloserMoveRegistries(s, u, k);
  }

  lemma ClaimConnRegistries(s: State, k: nat, c: nat)
    requires RegistriesOk(s) && Enabled(s, ClaimConn(k, c))
    ensures RegistriesOk(Apply(s, ClaimConn(k, c)))
  {
    var u := DoClaimConn(s, k, c);
    assert c in s.conns;
    assert s.closers[k := u.closers[k]] == u.closers;
    CloserMoveRegistries(s, u, k);
  }

  /** A closer that only moves on. */
  lemma PhaseRegistries(s: State, step: Step)
    requires RegistriesOk(s) && Enabled(s, step)
    requires step.PassWait? || step.OfferClaim? || step.Forward? || step.Return?
    ensures RegistriesOk(Apply(s, step))
  {
    CloserMoveRegistries(s, Apply(s, step), step.k);
  }

  lemma StepRegistries(s: State, step: Step)
    requires CountOk(s) && RegistriesOk(s) && Enabled(s, step)
    ensures RegistriesOk(Apply(s, step))
  {
    match step
    case NewOpen(o) => NewOpenRegistries(s, o);
    case DropHandle(c) => DropHandleRegistries(s, c);
    case SealAll(k) => SealRegistries(s, k);
    case ClaimOpen(k, o) => ClaimOpenRegistries(s, k, o);
    case ClaimConn(k, c) => ClaimConnRegistries(s, k, c);
    case PassWait(_) => PhaseRegistries(s, step);
    case OfferClaim(_) => PhaseRegistries(s, step);
    case Forward(_, _) => PhaseRegistries(s, step);
    case Return(_) => PhaseRegistries(s, step);
    case _ => ThreadStepRegistries(s, step);
  }

  // ----- Exactly-once accounts -----

  /** Terminal events offered for a key so far. */
  function Count(log: seq<Event>, key: Key): nat {
    if log == [] then 0
    else Count(log[..|log| - 1], key) + if KeyOf(log[|log| - 1]) == Some(key) then 1 else 0
  }

  function ThreadClaim(key: Key): Thread -> nat {
    (thread: Thread) => if thread.Offering? && KeyOf(thread.e) == Some(key) then 1 else 0
  }

  function CloserClaim(key: Key): Closer -> nat {
    (closer: Closer) => if closer.phase.Claiming? && KeyOf(closer.phase.e) == Some(key) then 1 else 0
  }

  /** Events offered or claimed for a key. */
  ghost function Tally(s: State, key: Key): nat {
    Count(s.log, key) + Sum(s.threads, ThreadClaim(key)) + Sum(s.closers, CloserClaim(key))
  }

  /** One terminal event is due for a registered open that is finished and for a connection
      that is marked closed. */
  predicate Due(s: State, key: Key) {
    match key
    case OpenKey(o) => o in s.registered && Finished(s, o)
    case ConnKey(c) => MarkedClosed(s, c)
  }

  function DueCount(s: State, key: Key): nat { if Due(s, key) then 1 else 0 }

  ghost predicate AccountsOk(s: State) { forall key :: Tally(s, key) == DueCount(s, key) }

  lemma CountSnoc(log: seq<Event>, e: Event, key: Key)
    ensures Count(log + [e], key) == Count(log, key) + if KeyOf(e) == Some(key) then 1 else 0
  {
    assert (log + [e])[..|log|] == log;
  }

  /** The change of one thread accounts for the change of the log and of what is due. */
  predicate ThreadBalanced(s: State, u: State, t: nat, key: Key) {
    && t in s.threads && t in u.threads
    && Count(u.log, key) + ThreadClaim(key)(u.threads[t]) + DueCount(s, key)
       == Count(s.log, key) + ThreadClaim(key)(s.threads[t]) + DueCount(u, key)
  }

  lemma OpenBalanced(s: State, t: nat, newConn: nat, o: nat, key: Key)
    requires RegistriesOk(s) && Enabled(s, Work(t, newConn)) && s.threads[t] == Producing(Open(o))
    ensures ThreadBalanced(s, DoWork(s, t, newConn), t, key)
  {
    assert ThreadTargetOk(s, s.threads[t]);
    var u := DoWork(s, t, newConn);
    if s.closed || Finished(s, o) {
      assert Due(u, key) == Due(s, key);
    } else {
      CountSnoc(s.log, Opened(o), key);
      assert o in s.registered;
      assert DueCount(u, key) == DueCount(s, key) + if key == OpenKey(o) then 1 else 0;
    }
  }

  lemma FinishBalanced(s: State, t: nat, newConn: nat, o: nat, key: Key)
    requires RegistriesOk(s) && Enabled(s, Work(t, newConn)) && s.threads[t] == Producing(FinishOpen(o))
    ensures ThreadBalanced(s, DoWork(s, t, newConn), t, key)
  {
    assert ThreadTargetOk(s, s.threads[t]);
  }

  lemma CloseBalanced(s: State, t: nat, newConn: nat, c: nat, key: Key)
    requires RegistriesOk(s) && Enabled(s, Work(t, newConn)) && s.threads[t] == Producing(CloseConnection(c))
    ensures ThreadBalanced(s, DoWork(s, t, newConn), t, key)
  {
    assert ThreadTargetOk(s, s.threads[t]);
  }

  lemma WorkBalanced(s: State, t: nat, newConn: nat, key: Key)
    requires RegistriesOk(s) && Enabled(s, Work(t, newConn))
    ensures ThreadBalanced(s, DoWork(s, t, newConn), t, key)
  {
    match s.threads[t].op
    case Record(id) => CountSnoc(s.log, Other(id), key);
    case Open(o) => OpenBalanced(s, t, newConn, o, key);
    case FinishOpen(o) => FinishBalanced(s, t, newConn, o, key);
    case CloseConnection(c) => CloseBalanced(s, t, newConn, c, key);
  }

  lemma ThreadStepBalanced(s: State, step: Step, key: Key)
    requires CountOk(s) && RegistriesOk(s) && Enabled(s, step) && OfThread(step)
    ensures ThreadBalanced(s, Apply(s, step), step.t, key)
  {
    if step.Work? {
      WorkBalanced(s, step.t, step.newConn, key);
    } else if step.Offer? {
      CountSnoc(s.log, s.threads[step.t].e, key);
    }
  }

  lemma ThreadStepAccounts(s: State, step: Step)
    requires CountOk(s) && RegistriesOk(s) && AccountsOk(s) && Enabled(s, step) && OfThread(step)
    ensures AccountsOk(Apply(s, step))
  {
    var u := Apply(s, step);
    ThreadStepMoves(s, step);
    forall key ensures Tally(u, key) == DueCount(u, key) {
      ThreadStepBalanced(s, step, key);
      SumUpdate(s.threads, ThreadClaim(key), step.t, u.threads[step.t]);
      assert Tally(s, key) == DueCount(s, key);
    }
  }

  /** Likewise for a closer. */
  predicate CloserBalanced(s: State, u: State, k: nat, key: Key) {
    && k in s.closers && k in u.closers
    && Count(u.log, key) + CloserClaim(key)(u.closers[k]) + DueCount(s, key)
       == Count(s.log, key) + CloserClaim(key)(s.closers[k]) + DueCount(u, key)
  }

  lemma CloserMoveAccounts(s: State, u: State, k: nat)
    requires AccountsOk(s) && k in s.closers && k in u.closers
    requires u.closers == s.closers[k := u.closers[k]] && u.threads == s.threads
    requires forall key :: CloserBalanced(s, u, k, key)
    ensures AccountsOk(u)
  {
    forall key ensures Tally(u, key) == DueCount(u, key) {
      assert CloserBalanced(s, u, k, key);
      SumUpdate(s.closers, CloserClaim(key), k, u.closers[k]);
      assert Tally(s, key) == DueCount(s, key);
    }
  }

  predicate OfCloser(step: Step) {
    || step.SealAll? || step.PassWait? || step.ClaimOpen? || step.ClaimConn? || step.OfferClaim?
    || step.Forward? || step.Return?
  }

  lemma ClaimOpenBalanced(s: State, k: nat, o: nat, key: Key)
    requires RegistriesOk(s) && Enabled(s, ClaimOpen(k, o))
    ensures CloserBalanced(s, DoClaimOpen(s, k, o), k, key)
  {
    assert o in s.registered;
  }

  lemma ClaimConnBalanced(s: State, k: nat, c: nat, key: Key)
    requires RegistriesOk(s) && Enabled(s, ClaimConn(k, c))
    ensures CloserBalanced(s, DoClaimConn(s, k, c), k, key)
  {
  }

  lemma CloserStepBalanced(s: State, step: Step, key: Key)
    requires RegistriesOk(s) && Enabled(s, step) && OfCloser(step)
    ensures CloserBalanced(s, Apply(s, step), step.k, key)
  {
    match step
    case OfferClaim(k) => CountSnoc(s.log, s.closers[k].phase.e, key);
    case ClaimOpen(k, o) => ClaimOpenBalanced(s, k, o, key);
    case ClaimConn(k, c) => ClaimConnBalanced(s, k, c, key);
    case SealAll(k) =>
    case PassWait(k) =>
    case Forward(k, _) =>
    case Return(k) =>
  }

  lemma CloserStepAccounts(s: State, step: Step)
    requires RegistriesOk(s) && AccountsOk(s) && Enabled(s, step) && OfCloser(step)
    ensures AccountsOk(Apply(s, step))
  {
    var u := Apply(s, step);
    forall key ensures CloserBalanced(s, u, step.k, key) {
      CloserStepBalanced(s, step, key);
    }
    assert u.closers == s.closers[step.k := u.closers[step.k]];
    CloserMoveAccounts(s, u, step.k);
  }

  lemma OtherStepAccounts(s: State, step: Step)
    requires RegistriesOk(s) && AccountsOk(s) && Enabled(s, step) && (step.NewOpen? || step.DropHandle?)
    ensures AccountsOk(Apply(s, step))
  {
    var u := Apply(s, step);
    forall key ensures Tally(u, key) == DueCount(u, key) {
      assert Tally(s, key) == DueCount(s, key) && Tally(u, key) == Tally(s, key);
      assert Due(u, key) == Due(s, key);
    }
  }

  // ----- Accepted events -----

  function ThreadSends(key: Key): Thread -> nat {
    (thread: Thread) => if thread.Sending? && KeyOf(thread.e) == Some(key) then 1 else 0
  }

  function CloserSends(key: Key): Closer -> nat {
    (closer: Closer) => if closer.phase.Forwarding? && KeyOf(closer.phase.e) == Some(key) then 1 else 0
  }

  /** Events accepted, or offered and not yet decided, for a key. */
  ghost function Taken(s: State, key: Key): nat {
    Count(s.accepted, key) + Sum(s.threads, ThreadSends(key)) + Sum(s.closers, CloserSends(key))
  }

  ghost predicate AcceptedOk(s: State) { forall key :: Taken(s, key) <= Count(s.log, key) }

  /** One thread takes no more of a key than it offers. */
  predicate ThreadFlows(s: State, u: State, t: nat, key: Key) {
    && t in s.threads && t in u.threads
    && Count(u.accepted, key) + ThreadSends(key)(u.threads[t]) + Count(s.log, key)
       <= Count(s.accepted, key) + ThreadSends(key)(s.threads[t]) + Count(u.log, key)
  }

  lemma TakeCounts(s: State, e: Event, accept: bool, key: Key)
    ensures Count(Take(s, e, accept).accepted, key)
            <= Count(s.accepted, key) + if KeyOf(e) == Some(key) then 1 else 0
  {
    CountSnoc(s.accepted, e, key);
    assert s.accepted + [] == s.accepted;
  }

  lemma EffectFlows(s: State, op: Op, newConn: nat, key: Key)
    ensures var (u, thread) := Effect(s, op, newConn);
            ThreadSends(key)(thread) + Count(s.log, key) == Count(u.log, key)
  {
    match op
    case Record(id) => CountSnoc(s.log, Other(id), key);
    case Open(o) => CountSnoc(s.log, Opened(o), key);
    case FinishOpen(_) =>
    case CloseConnection(_) =>
  }

  lemma WorkFlows(s: State, t: nat, newConn: nat, key: Key)
    requires Enabled(s, Work(t, newConn))
    ensures ThreadFlows(s, DoWork(s, t, newConn), t, key)
  {
    EffectLeaves(s, s.threads[t].op, newConn);
    EffectFlows(s, s.threads[t].op, newConn, key);
  }

  lemma ThreadStepFlows(s: State, step: Step, key: Key)
    requires Enabled(s, step) && OfThread(step)
    ensures ThreadFlows(s, Apply(s, step), step.t, key)
  {
    if step.Work? {
      WorkFlows(s, step.t, step.newConn, key);
    } else if step.Offer? {
      CountSnoc(s.log, s.threads[step.t].e, key);
    } else if step.Send? {
      TakeCounts(s, s.threads[step.t].e, step.accept, key);
    }
  }

  lemma ThreadStepAccepted(s: State, step: Step)
    requires CountOk(s) && AcceptedOk(s) && Enabled(s, step) && OfThread(step)
    ensures AcceptedOk(Apply(s, step))
  {
    var u := Apply(s, step);
    ThreadStepMoves(s, step);
    forall key ensures Taken(u, key) <= Count(u.log, key) {
      ThreadStepFlows(s, step, key);
      SumUpdate(s.threads, ThreadSends(key), step.t, u.threads[step.t]);
      assert Taken(s, key) <= Count(s.log, key);
    }
  }

  predicate CloserFlows(s: State, u: State, k: nat, key: Key) {
    && k in s.closers && k in u.closers
    && Count(u.accepted, key) + CloserSends(key)(u.closers[k]) + Count(s.log, key)
       <= Count(s.accepted, key) + CloserSends(key)(s.closers[k]) + Count(u.log, key)
  }

  lemma CloserStepFlows(s: State, step: Step, key: Key)
    requires Enabled(s, step) && OfCloser(step)
    ensures CloserFlows(s, Apply(s, step), step.k, key)
  {
    match step
    case OfferClaim(k) => CountSnoc(s.log, s.closers[k].phase.e, key);
    case Forward(k, accept) => TakeCounts(s, s.closers[k].phase.e, accept, key);
    case SealAll(_) =>
    case PassWait(_) =>
    case ClaimOpen(_, _) =>
    case ClaimConn(_, _) =>
    case Return(_) =>
  }

  lemma CloserStepAccepted(s: State, step: Step)
    requires AcceptedOk(s) && Enabled(s, step) && OfCloser(step)
    ensures AcceptedOk(Apply(s, step))
  {
    var u := Apply(s, step);
    assert u.closers == s.closers[step.k := u.closers[step.k]] && u.threads == s.threads;
    forall key ensures Taken(u, key) <= Count(u.log, key) {
      CloserStepFlows(s, step, key);
      SumUpdate(s.closers, CloserSends(key), step.k, u.closers[step.k]);
      assert Taken(s, key) <= Count(s.log, key);
    }
  }

  lemma OtherStepAccepted(s: State, step: Step)
    requires AcceptedOk(s) && Enabled(s, step) && (step.NewOpen? || step.DropHandle?)
    ensures AcceptedOk(Apply(s, step))
  {
    var u := Apply(s, step);
    forall key ensures Taken(u, key) <= Count(u.log, key) {
      assert Taken(s, key) <= Count(s.log, key) && Taken(u, key) == Taken(s, key);
    }
  }

  ghost predicate Inv(s: State) { CountOk(s) && RegistriesOk(s) && AccountsOk(s) && AcceptedOk(s) }

  lemma StepKeeps(s: State, step: Step)
    requires Inv(s) && Enabled(s, step)
    ensures Inv(Apply(s, step))
  {
    StepCount(s, step);
    StepRegistries(s, step);
    if OfThread(step) {
      ThreadStepAccounts(s, step);
      ThreadStepAccepted(s, step);
    } else if OfCloser(step) {
      CloserStepAccounts(s, step);
      CloserStepAccepted(s, step);
    } else {
      OtherStepAccounts(s, step);
      OtherStepAccepted(s, step);
    }
  }

  lemma SuccessorKeeps(s: State, t: State)
    requires Inv(s) && Successor(s, t)
    ensures Inv(t)
  {
    var step :| Enabled(s, step) && t == Apply(s, step);
    StepKeeps(s, step);
  }

  lemma InitOk(s: State)
    requires Init(s)
    ensures Inv(s)
  {
    SumZero(s.threads, Counted);
    forall key ensures Tally(s, key) == DueCount(s, key) {
      SumZero(s.threads, ThreadClaim(key));
      SumZero(s.closers, CloserClaim(key));
    }
    forall key ensures Taken(s, key) <= Count(s.log, key) {
      SumZero(s.threads, ThreadSends(key));
      SumZero(s.closers, CloserSends(key));
    }
  }

  lemma InvPreserved()
    ensures Preserves(Successor, Inv)
  {
    forall s, t | Inv(s) && Successor(s, t) ensures Inv(t) {
      SuccessorKeeps(s, t);
    }
  }

  lemma RunKeepsInv(run: seq<State>, i: nat)
    requires IsRun(Init, Successor, run) && i < |run|
    ensures Inv(run[i])
  {
    InitOk(run[0]);
    InvPreserved();
    Later(Successor, Inv, run, 0, i);
  }

  // ----- Main results -----

  /** In every interleaving, at every moment: at most one of Opened and OpenFailed per open,
      at most one ConnectionClosed per connection, and none at all for an open made after
      the seal; and the journal accepts nothing that was not offered. */
  lemma AtMostOnce(run: seq<State>, i: nat)
    requires IsRun(Init, Successor, run) && i < |run|
    ensures forall key :: Count(run[i].accepted, key) <= Count(run[i].log, key) <= 1
    ensures forall o :: o !in run[i].registered ==> Count(run[i].log, OpenKey(o)) == 0
  {
    RunKeepsInv(run, i);
    var s := run[i];
    forall key ensures Count(s.accepted, key) <= Count(s.log, key) <= 1 {
      assert Tally(s, key) == DueCount(s, key);
      assert Taken(s, key) <= Count(s.log, key);
    }
    forall o | o !in s.registered ensures Count(s.log, OpenKey(o)) == 0 {
      assert Tally(s, OpenKey(o)) == DueCount(s, OpenKey(o));
    }
  }

  /** The call that sealed has returned. */
  predicate ShutDown(s: State) {
    s.seal.Some? && s.seal.value.sealer in s.closers && s.closers[s.seal.value.sealer].phase.Returned?
  }

  lemma NoClaims(s: State, key: Key)
    requires Inv(s) && ShutDown(s)
    ensures Tally(s, key) == Count(s.log, key)
  {
    forall t | t in s.threads ensures ThreadClaim(key)(s.threads[t]) == 0 {
      assert PastWait(s.closers[s.seal.value.sealer]);
      assert !Working(s.threads[t]);
    }
    SumZero(s.threads, ThreadClaim(key));
    SumZero(s.closers, CloserClaim(key));
  }

  /** Once the sealing call has returned, every open registered before the seal has been
      offered exactly one of Opened and OpenFailed, and every connection whose handle was
      alive at the seal exactly one ConnectionClosed. */
  lemma ExactlyOnceAtShutdown(run: seq<State>, i: nat)
    requires IsRun(Init, Successor, run) && i < |run| && ShutDown(run[i])
    ensures forall o :: o in run[i].registered ==> Count(run[i].log, OpenKey(o)) == 1
    ensures forall c :: c in run[i].seal.value.alive ==> Count(run[i].log, ConnKey(c)) == 1
  {
    RunKeepsInv(run, i);
    var s := run[i];
    forall o | o in s.registered ensures Count(s.log, OpenKey(o)) == 1 {
      NoClaims(s, OpenKey(o));
      assert Tally(s, OpenKey(o)) == DueCount(s, OpenKey(o));
    }
    forall c | c in s.seal.value.alive ensures Count(s.log, ConnKey(c)) == 1 {
      NoClaims(s, ConnKey(c));
      assert Tally(s, ConnKey(c)) == DueCount(s, ConnKey(c));
    }
  }

  /** The seal is set once; what it recorded, and the opens registered before it, stay. */
  lemma SealIsFinal(s: State, t: State)
    requires Inv(s) && Successor(s, t) && s.closed
    ensures t.closed && t.seal == s.seal && t.registered == s.registered
    ensures ShutDown(s) ==> ShutDown(t) && t.log == s.log && t.accepted == s.accepted
  {
    var step :| Enabled(s, step) && t == Apply(s, step);
    SealIsFinalStep(s, step);
  }

  lemma SealIsFinalStep(s: State, step: Step)
    requires Inv(s) && Enabled(s, step) && s.closed
    ensures var t := Apply(s, step);
            && t.closed && t.seal == s.seal && t.registered == s.registered
            && (ShutDown(s) ==> ShutDown(t) && t.log == s.log && t.accepted == s.accepted)
  {
    if OfThread(step) {
      ThreadStepMoves(s, step);
      ThreadStepGrows(s, step);
      if ShutDown(s) {
        assert PastWait(s.closers[s.seal.value.sealer]);
        assert !Working(s.threads[step.t]);
      }
    }
  }

  /** Shut down, with these offered and accepted events. */
  ghost predicate ShutDownWith(s: State, log: seq<Event>, accepted: seq<Event>) {
    Inv(s) && ShutDown(s) && s.log == log && s.accepted == accepted
  }

  lemma ShutDownPreserved(log: seq<Event>, accepted: seq<Event>)
    ensures Preserves(Successor, (s: State) => ShutDownWith(s, log, accepted))
  {
    forall s, t | ShutDownWith(s, log, accepted) && Successor(s, t) ensures ShutDownWith(t, log, accepted) {
      SealIsFinal(s, t);
      SuccessorKeeps(s, t);
    }
  }

  /** Once the sealing call has returned, nothing is ever offered or accepted again. */
  lemma NothingAfterShutdown(run: seq<State>, i: nat, j: nat)
    requires IsRun(Init, Successor, run) && i <= j < |run| && ShutDown(run[i])
    ensures ShutDown(run[j]) && run[j].log == run[i].log && run[j].accepted == run[i].accepted
  {
    var log, accepted := run[i].log, run[i].accepted;
    RunKeepsInv(run, i);
    ShutDownPreserved(log, accepted);
    Later(Successor, (s: State) => ShutDownWith(s, log, accepted), run, i, j);
  }

  // ----- Several closers -----

  /** The sealing call still has a terminal event to offer. */
  ghost predicate Owes(s: State) {
    && s.seal.Some? && s.seal.value.sealer in s.closers
    && var closer := s.closers[s.seal.value.sealer];
       || closer.phase.Claiming?
       || (exists o :: o in closer.opens && !Finished(s, o))
       || (exists c :: c in closer.conns && !MarkedClosed(s, c))
  }

  /** Some call, not necessarily the sealing one, has returned. */
  ghost predicate AnyReturned(s: State) { exists k :: k in s.closers && s.closers[k].phase.Returned? }

  /** The sealing call has offered an event that the journal has yet to take or drop. */
  predicate InTransit(s: State) {
    s.seal.Some? && s.seal.value.sealer in s.closers && s.closers[s.seal.value.sealer].phase.Forwarding?
  }

  /** Some continuation of `s` offers another event. */
  ghost predicate CanOffer(s: State) { exists t :: Leads(Successor, s, t) && |t.log| > |s.log| }

  /** Some continuation of `s` accepts another event. */
  ghost predicate CanAccept(s: State) { exists t :: Leads(Successor, s, t) && |t.accepted| > |s.accepted| }

  ghost predicate Settled(s: State, log: seq<Event>) { Inv(s) && AnyReturned(s) && !Owes(s) && s.log == log }

  ghost predicate Quiet(s: State, accepted: seq<Event>) {
    Inv(s) && AnyReturned(s) && !Owes(s) && !InTransit(s) && s.accepted == accepted
  }

  lemma NoWorkAfterReturn(s: State, t: nat)
    requires CountOk(s) && AnyReturned(s) && t in s.threads
    ensures !Working(s.threads[t])
  {
    var k :| k in s.closers && s.closers[k].phase.Returned?;
    assert PastWait(s.closers[k]);
  }

  lemma ReturnsStay(s: State, step: Step)
    requires CountOk(s) && Enabled(s, step) && AnyReturned(s)
    ensures AnyReturned(Apply(s, step))
  {
    var k :| k in s.closers && s.closers[k].phase.Returned?;
    if OfThread(step) {
      ThreadStepMoves(s, step);
    }
    assert Apply(s, step).closers[k].phase.Returned?;
  }

  lemma SettledThreadStep(s: State, step: Step)
    requires Settled(s, s.log) && Enabled(s, step) && OfThread(step)
    ensures !Owes(Apply(s, step)) && Apply(s, step).log == s.log
  {
    ThreadStepMoves(s, step);
    ThreadStepGrows(s, step);
    NoWorkAfterReturn(s, step.t);
  }

  lemma SettledCloserStep(s: State, step: Step)
    requires Settled(s, s.log) && Enabled(s, step) && !OfThread(step)
    ensures !Owes(Apply(s, step)) && Apply(s, step).log == s.log
  {
  }

  lemma SettledPreserved(log: seq<Event>)
    ensures Preserves(Successor, (s: State) => Settled(s, log))
  {
    forall s, t | Settled(s, log) && Successor(s, t) ensures Settled(t, log) {
      SuccessorKeeps(s, t);
      var step :| Enabled(s, step) && t == Apply(s, step);
      ReturnsStay(s, step);
      if OfThread(step) {
        SettledThreadStep(s, step);
      } else {
        SettledCloserStep(s, step);
      }
    }
  }

  lemma QuietThreadStep(s: State, step: Step)
    requires Quiet(s, s.accepted) && Enabled(s, step) && OfThread(step)
    ensures !InTransit(Apply(s, step)) && Apply(s, step).accepted == s.accepted
  {
    ThreadStepMoves(s, step);
    NoWorkAfterReturn(s, step.t);
  }

  lemma QuietCloserStep(s: State, step: Step)
    requires Quiet(s, s.accepted) && Enabled(s, step) && !OfThread(step)
    ensures !InTransit(Apply(s, step)) && Apply(s, step).accepted == s.accepted
  {
  }

  lemma QuietPreserved(accepted: seq<Event>)
    ensures Preserves(Successor, (s: State) => Quiet(s, accepted))
  {
    forall s, t | Quiet(s, accepted) && Successor(s, t) ensures Quiet(t, accepted) {
      SuccessorKeeps(s, t);
      var step :| Enabled(s, step) && t == Apply(s, step);
      ReturnsStay(s, step);
      if OfThread(step) {
        SettledThreadStep(s, step);
        QuietThreadStep(s, step);
      } else {
        SettledCloserStep(s, step);
        QuietCloserStep(s, step);
      }
    }
  }

  // A debt can always be paid: late producers leave, the sealing call stops waiting, claims
  // and offers.

  function Weight(thread: Thread): nat {
    match thread
    case Rechecking(_) => 2
    case Leaving => 1
    case _ => 0
  }

  /** Everything but the threads and their count. */
  predicate SameRest(s: State, t: State) {
    && t.log == s.log && t.accepted == s.accepted && t.closers == s.closers && t.seal == s.seal
    && t.opens == s.opens && t.conns == s.conns
  }

  lemma LateProducerMoves(s: State) returns (m: State)
    requires Inv(s) && AnyReturned(s) && s.active > 0
    ensures Successor(s, m) && Inv(m) && SameRest(s, m)
    ensures Sum(m.threads, Weight) < Sum(s.threads, Weight)
  {
    if forall r :: r in s.threads ==> Counted(s.threads[r]) == 0 {
      SumZero(s.threads, Counted);
    }
    var r :| r in s.threads && Counted(s.threads[r]) != 0;
    NoWorkAfterReturn(s, r);
    var k :| k in s.closers && s.closers[k].phase.Returned?;
    assert s.closed;
    var step := if s.threads[r].Leaving? then Leave(r) else Recheck(r);
    m := Apply(s, step);
    SumUpdate(s.threads, Weight, r, m.threads[r]);
    StepKeeps(s, step);
    assert Successor(s, m);
  }

  lemma {:induction false} LateProducersLeave(s: State) returns (t: State)
    requires Inv(s) && AnyReturned(s)
    ensures Leads(Successor, s, t) && Inv(t) && t.active == 0 && SameRest(s, t)
    decreases Sum(s.threads, Weight)
  {
    if s.active == 0 {
      LeadsSelf(Successor, s);
      return s;
    }
    var m := LateProducerMoves(s);
    t := LateProducersLeave(m);
    LeadsStep(Successor, s, m, t);
  }

  function Burden(s: State): nat {
    if s.seal.Some? && s.seal.value.sealer in s.closers
    then |s.closers[s.seal.value.sealer].opens| + |s.closers[s.seal.value.sealer].conns|
    else 0
  }

  ghost predicate Indebted(s: State) { Inv(s) && Owes(s) && PastWait(s.closers[s.seal.value.sealer]) }

  lemma ClaimOpenLeavesDebt(s: State, k: nat, o: nat)
    requires Owes(s) && s.seal.value.sealer == k && Enabled(s, ClaimOpen(k, o))
    ensures var m := DoClaimOpen(s, k, o);
            && Owes(m) && PastWait(m.closers[k]) && m.seal == s.seal && Burden(m) < Burden(s)
            && m.log == s.log && m.accepted == s.accepted
  {
    var m := DoClaimOpen(s, k, o);
    assert s.closers[k].opens == m.closers[k].opens + {o};
    if Finished(s, o) {
      if r :| r in s.closers[k].opens && !Finished(s, r) {
        assert r in m.closers[k].opens && !Finished(m, r);
      } else {
        var d :| d in s.closers[k].conns && !MarkedClosed(s, d);
        assert d in m.closers[k].conns && !MarkedClosed(m, d);
      }
    }
  }

  lemma ClaimsNextOpen(s: State, o: nat) returns (m: State)
    requires Indebted(s) && s.closers[s.seal.value.sealer].phase.Finishing? && o in s.closers[s.seal.value.sealer].opens
    ensures Successor(s, m) && Indebted(m) && m.log == s.log && m.accepted == s.accepted && Burden(m) < Burden(s)
  {
    var k := s.seal.value.sealer;
    var step := ClaimOpen(k, o);
    m := Apply(s, step);
    ClaimOpenLeavesDebt(s, k, o);
    StepKeeps(s, step);
    assert Successor(s, m);
  }

  lemma ClaimConnLeavesDebt(s: State, k: nat, c: nat)
    requires Owes(s) && s.seal.value.sealer == k && Enabled(s, ClaimConn(k, c)) && c in s.conns
    ensures var m := DoClaimConn(s, k, c);
            && Owes(m) && PastWait(m.closers[k]) && m.seal == s.seal && Burden(m) < Burden(s)
            && m.log == s.log && m.accepted == s.accepted
  {
    var m := DoClaimConn(s, k, c);
    assert s.closers[k].conns == m.closers[k].conns + {c};
    if MarkedClosed(s, c) {
      var d :| d in s.closers[k].conns && !MarkedClosed(s, d);
      assert d in m.closers[k].conns && !MarkedClosed(m, d);
    }
  }

  lemma ClaimsNextConn(s: State, c: nat) returns (m: State)
    requires Indebted(s) && s.closers[s.seal.value.sealer].phase.Finishing?
    requires s.closers[s.seal.value.sealer].opens == {} && c in s.closers[s.seal.value.sealer].conns
    ensures Successor(s, m) && Indebted(m) && m.log == s.log && m.accepted == s.accepted && Burden(m) < Burden(s)
  {
    var k := s.seal.value.sealer;
    var step := ClaimConn(k, c);
    m := Apply(s, step);
    ClaimConnLeavesDebt(s, k, c);
    StepKeeps(s, step);
    assert Successor(s, m);
  }

  /** An event in transit can be accepted. */
  lemma TransitEnds(s: State) returns (t: State)
    requires Inv(s) && InTransit(s)
    ensures Successor(s, t) && Leads(Successor, s, t)
    ensures |t.accepted| > |s.accepted| && t.log == s.log && Burden(t) == Burden(s)
    ensures Owes(s) ==> Indebted(t) && !InTransit(t)
  {
    var k := s.seal.value.sealer;
    t := Apply(s, Forward(k, true));
    StepKeeps(s, Forward(k, true));
    assert Successor(s, t);
    LeadsSelf(Successor, t);
    LeadsStep(Successor, s, t, t);
  }

  lemma {:induction false} DebtIsPaid(s: State) returns (t: State)
    requires Indebted(s)
    ensures Leads(Successor, s, t) && |t.log| > |s.log|
    ensures Inv(t) && InTransit(t) && |t.accepted| >= |s.accepted|
    decreases Burden(s), if InTransit(s) then 1 else 0
  {
    var k := s.seal.value.sealer;
    var closer := s.closers[k];
    if closer.phase.Claiming? {
      t := Apply(s, OfferClaim(k));
      StepKeeps(s, OfferClaim(k));
      assert Successor(s, t);
      LeadsSelf(Successor, t);
      LeadsStep(Successor, s, t, t);
    } else {
      var m;
      if closer.phase.Forwarding? {
        m := TransitEnds(s);
      } else if closer.opens != {} {
        var o :| o in closer.opens;
        m := ClaimsNextOpen(s, o);
      } else {
        var c :| c in closer.conns;
        m := ClaimsNextConn(s, c);
      }
      t := DebtIsPaid(m);
      LeadsStep(Successor, s, m, t);
    }
  }

  lemma StopsWaiting(s: State) returns (t: State)
    requires Inv(s) && Owes(s) && s.active == 0
    ensures Leads(Successor, s, t) && Indebted(t) && t.log == s.log && t.accepted == s.accepted
  {
    var k := s.seal.value.sealer;
    LeadsSelf(Successor, s);
    t := s;
    if s.closers[k].phase.Waiting? {
      t := Apply(s, PassWait(k));
      StepKeeps(s, PassWait(k));
      assert Successor(s, t);
      LeadsSelf(Successor, t);
      LeadsStep(Successor, s, t, t);
    }
  }

  lemma OwedIsOffered(s: State)
    requires Inv(s) && AnyReturned(s) && Owes(s)
    ensures CanOffer(s) && CanAccept(s)
  {
    var t := LateProducersLeave(s);
    var u := StopsWaiting(t);
    var v := DebtIsPaid(u);
    LeadsTrans(Successor, s, t, u);
    LeadsTrans(Successor, s, u, v);
    var w := TransitEnds(v);
    LeadsTrans(Successor, s, v, w);
  }

  /** Main result for several closers: after some `close_connections` call has returned, a
      further event can still be offered exactly when the sealing call owes one, and accepted
      exactly when the sealing call owes one or has one in transit. */
  lemma ReturnIsFinalUnlessOwed(run: seq<State>, i: nat)
    requires IsRun(Init, Successor, run) && i < |run| && AnyReturned(run[i])
    ensures CanOffer(run[i]) <==> Owes(run[i])
    ensures CanAccept(run[i]) <==> Owes(run[i]) || InTransit(run[i])
  {
    RunKeepsInv(run, i);
    var s := run[i];
    if Owes(s) {
      OwedIsOffered(s);
    } else if InTransit(s) {
      var t := TransitEnds(s);
      NothingOffered(s);
    } else {
      NothingOffered(s);
      QuietPreserved(s.accepted);
      forall t | Leads(Successor, s, t) ensures t.accepted == s.accepted {
        LeadsKeeps(Successor, (u: State) => Quiet(u, s.accepted), s, t);
      }
    }
  }

  lemma NothingOffered(s: State)
    requires Inv(s) && AnyReturned(s) && !Owes(s)
    ensures !CanOffer(s)
  {
    SettledPreserved(s.log);
    forall t | Leads(Successor, s, t) ensures t.log == s.log {
      LeadsKeeps(Successor, (u: State) => Settled(u, s.log), s, t);
    }
  }

  /** A later call, finding nothing to take over, returns at once. */
  lemma LaterCallReturns(s: State, k: nat) returns (t: State)
    requires s.closed && s.active == 0 && s.pending == {} && s.connections == {} && InPhase(s, k, NotStarted)
    ensures Leads(Successor, s, t) && t == s.(closers := s.closers[k := Closer(Returned, {}, {})], seal := t.seal)
    ensures s.seal.Some? ==> t.seal == s.seal
  {
    var a := Apply(s, SealAll(k));
    assert a.closers[k] == Closer(Waiting, {}, {});
    var b := Apply(a, PassWait(k));
    t := Apply(b, Return(k));
    assert Successor(s, a) && Successor(a, b) && Successor(b, t);
    LeadsSelf(Successor, t);
    LeadsStep(Successor, b, t, t);
    LeadsStep(Successor, a, b, t);
    LeadsStep(Successor, s, a, t);
  }

  lemma FirstCallSeals() returns (s: State, t: State)
    ensures Init(s) && Leads(Successor, s, t)
    ensures t.closed && t.active == 0 && t.pending == {} && t.connections == {} && InPhase(t, 1, NotStarted)
    ensures Owes(t) && t.seal.value.sealer == 0
  {
    var idle := Closer(NotStarted, {}, {});
    s := State(false, 0, {}, {}, map[], {}, map[], map[], map[0 := idle, 1 := idle], [], [], None);
    var a := Apply(s, NewOpen(0));
    t := Apply(a, SealAll(0));
    assert Successor(s, a) && Successor(a, t);
    LeadsSelf(Successor, t);
    LeadsStep(Successor, a, t, t);
    LeadsStep(Successor, s, a, t);
    assert 0 in t.closers[0].opens && !Finished(t, 0);
  }

  /** Such a debt does occur: a second call returns while the first still waits with an open. */
  lemma EarlyReturnHappens() returns (s: State, t: State)
    ensures Init(s) && Leads(Successor, s, t) && AnyReturned(t) && Owes(t)
  {
    var m;
    s, m := FirstCallSeals();
    t := LaterCallReturns(m, 1);
    LeadsTrans(Successor, s, m, t);
    assert t.closers[1].phase.Returned?;
  }
}
