/** Per-origin and global connection permits with garbage collection of idle origin gates
    (src/core/client/connection_limit.rs).

    Any number of tasks acquire and release. The gate map is touched only under its lock, so
    a lookup with its cleanup and insertion is one step; a permit is taken or given back in
    one step; a waiting task may time out or be dropped at any point. */
module ConnectionGates {
  import opened Basics
  import opened MapSums
  import opened Runs

  const ORIGIN_GATE_CLEANUP_THRESHOLD: nat := 1024

  /** A semaphore a task keeps alive, and the origin it was looked up for. */
  datatype Ref = Ref(origin: string, sem: nat)

  datatype Task =
    | Idle
    | AtOrigin(ref: Ref)                             // holds the origin semaphore, not yet a permit
    | AtGlobal(permit: Option<Ref>)                  // holds the origin permit, if there is one
    | Connected(permit: Option<Ref>, global: bool)   // holds the whole connection permit

  /** `gates` is the map behind the lock; `available` the free permits of every semaphore.
      `asked` is history: the origin for which each task last asked for a connection. */
  datatype State = State(
    perHost: Option<nat>,
    maxGlobal: Option<nat>,
    gates: map<string, nat>,
    available: map<nat, nat>,
    nextSem: nat,
    globalAvailable: nat,
    tasks: map<nat, Task>,
    asked: map<nat, Option<string>>)

  // ----- The gate map -----

  function RefOf(task: Task): Option<Ref> {
    match task
    case Idle => None
    case AtOrigin(ref) => Some(ref)
    case AtGlobal(permit) => permit
    case Connected(permit, _) => permit
  }

  /** The semaphores that some task keeps alive: their strong count exceeds the map's own one. */
  function ReferencedSems(tasks: map<nat, Task>): set<nat> {
    set t | t in tasks && RefOf(tasks[t]).Some? :: RefOf(tasks[t]).value.sem
  }

  /** What the cleanup retains: semaphores in use, or with a permit out. */
  function Retained(gates: map<string, nat>, available: map<nat, nat>, max: nat, inUse: set<nat>): map<string, nat> {
    map o | o in gates && (gates[o] in inUse || (gates[o] in available && available[gates[o]] < max)) :: gates[o]
  }

  function Cleaned(gates: map<string, nat>, available: map<nat, nat>, max: nat, inUse: set<nat>): map<string, nat> {
    if |gates| >= ORIGIN_GATE_CLEANUP_THRESHOLD then Retained(gates, available, max, inUse) else gates
  }

  class OriginConnectionGates {
    const maxPerHost: nat
    var gates: map<string, nat>
    var available: map<nat, nat>
    var nextSem: nat

    constructor (max: nat)
      ensures maxPerHost == max && gates == map[] && available == map[] && nextSem == 0
    {
      maxPerHost, gates, available, nextSem := max, map[], map[], 0;
    }

    /** The lookup: an existing gate is returned untouched; otherwise idle gates may be
        dropped and a full new semaphore is entered. */
    method Semaphore(origin: string, inUse: set<nat>) returns (sem: nat)
      modifies this
      ensures old(origin in gates) ==>
                && sem == old(gates)[origin] && gates == old(gates)
                && available == old(available) && nextSem == old(nextSem)
      ensures old(origin !in gates) ==>
                && sem == old(nextSem) && nextSem == sem + 1
                && gates == Cleaned(old(gates), old(available), maxPerHost, inUse)[origin := sem]
                && available == old(available)[sem := maxPerHost]
    {
      if origin in gates {
        return gates[origin];
      }
      if |gates| >= ORIGIN_GATE_CLEANUP_THRESHOLD {
        gates := Retained(gates, available, maxPerHost, inUse);
      }
      sem := nextSem;
      nextSem := nextSem + 1;
      available := available[sem := maxPerHost];
      gates := gates[origin := sem];
    }
  }

  // ----- Steps -----

  datatype Step =
    | Start(t: nat, origin: Option<string>)
    | TakeOrigin(t: nat)
    | TakeGlobal(t: nat)
    | GiveUp(t: nat)
    | Release(t: nat)

  predicate Enabled(s: State, step: Step) {
    && step.t in s.tasks
    && var task := s.tasks[step.t];
       match step
       case Start(_, _) => task.Idle?
       case TakeOrigin(_) => task.AtOrigin? && task.ref.sem in s.available && s.available[task.ref.sem] > 0
       case TakeGlobal(_) => task.AtGlobal? && (s.maxGlobal.Some? ==> s.globalAvailable > 0)
       case GiveUp(_) => task.AtOrigin? || task.AtGlobal?
       case Release(_) => task.Connected?
  }

  function WithTask(s: State, t: nat, task: Task): State { s.(tasks := s.tasks[t := task]) }

  function LookUp(s: State, t: nat, origin: string): State
    requires s.perHost.Some?
  {
    if origin in s.gates then WithTask(s, t, AtOrigin(Ref(origin, s.gates[origin])))
    else
      var kept := Cleaned(s.gates, s.available, s.perHost.value, ReferencedSems(s.tasks));
      WithTask(s.(gates := kept[origin := s.nextSem],
                  available := s.available[s.nextSem := s.perHost.value],
                  nextSem := s.nextSem + 1),
               t, AtOrigin(Ref(origin, s.nextSem)))
  }

  /** Giving an origin permit back to its semaphore. */
  function GiveBack(s: State, permit: Option<Ref>): State {
    if permit.None? || permit.value.sem !in s.available then s
    else s.(available := s.available[permit.value.sem := s.available[permit.value.sem] + 1])
  }

  function Move(s: State, step: Step): State
    requires Enabled(s, step)
  {
    var task := s.tasks[step.t];
    match step
    case Start(t, origin) =>
      if origin.Some? && s.perHost.Some? then LookUp(s, t, origin.value) else WithTask(s, t, AtGlobal(None))
    case TakeOrigin(t) =>
      WithTask(s.(available := s.available[task.ref.sem := s.available[task.ref.sem] - 1]), t, AtGlobal(Some(task.ref)))
    case TakeGlobal(t) =>
      if s.maxGlobal.None? then WithTask(s, t, Connected(task.permit, false))
      else WithTask(s.(globalAvailable := s.globalAvailable - 1), t, Connected(task.permit, true))
    case GiveUp(t) => WithTask(if task.AtGlobal? then GiveBack(s, task.permit) else s, t, Idle)
    case Release(t) =>
      var u := GiveBack(s, task.permit);
      WithTask(u.(globalAvailable := u.globalAvailable + if task.global then 1 else 0), t, Idle)
  }

  function Apply(s: State, step: Step): State
    requires Enabled(s, step)
  {
    Move(s, step).(asked := if step.Start? then s.asked[step.t := step.origin] else s.asked)
  }

  ghost predicate Init(s: State) {
    && s.gates == map[] && s.available == map[] && s.nextSem == 0
    && s.globalAvailable == (if s.maxGlobal.Some? then s.maxGlobal.value else 0)
    && (forall t :: t in s.tasks ==> s.tasks[t].Idle?)
  }

  ghost predicate Successor(s: State, t: State) {
    exists step :: Enabled(s, step) && t == Apply(s, step)
  }

  // ----- Permits -----

  function PermitOf(task: Task): Option<Ref> {
    match task
    case AtGlobal(permit) => permit
    case Connected(permit, _) => permit
    case _ => None
  }

  /** One for a task holding a permit of the semaphore. */
  function PermitOn(sem: nat): Task -> nat {
    (task: Task) => if PermitOf(task).Some? && PermitOf(task).value.sem == sem then 1 else 0
  }

  /** One for a task holding a permit for the origin. */
  function PermitFor(origin: string): Task -> nat {
    (task: Task) => if PermitOf(task).Some? && PermitOf(task).value.origin == origin then 1 else 0
  }

  function GlobalPermit(task: Task): nat { if task.Connected? && task.global then 1 else 0 }

  /** Every task's semaphore is the one in the map for its origin, and no two origins share one. */
  ghost predicate SharedGates(s: State) {
    && (forall t :: t in s.tasks && RefOf(s.tasks[t]).Some? ==> RefOk(s, RefOf(s.tasks[t]).value))
    && (forall o :: o in s.gates ==> s.gates[o] < s.nextSem && s.gates[o] in s.available)
    && (forall sem :: sem in s.available ==> sem < s.nextSem)
    && (forall o, p :: o in s.gates && p in s.gates && s.gates[o] == s.gates[p] ==> o == p)
  }

  predicate RefOk(s: State, ref: Ref) { ref.origin in s.gates && s.gates[ref.origin] == ref.sem }

  /** Free and taken permits of every semaphore add up to the limit. */
  ghost predicate PermitsOk(s: State) {
    forall sem :: sem in s.available ==>
      s.perHost.Some? && s.available[sem] + Sum(s.tasks, PermitOn(sem)) == s.perHost.value
  }

  ghost predicate GlobalOk(s: State) {
    && (s.maxGlobal.Some? ==> s.globalAvailable + Sum(s.tasks, GlobalPermit) == s.maxGlobal.value)
    && (forall t :: t in s.tasks && s.tasks[t].Connected? ==> s.tasks[t].global == s.maxGlobal.Some?)
  }

  /** A task waits for, or holds, a permit of the origin it asked for, and of no other; it does
      without one exactly when it named none or there is no limit per host. */
  predicate HoldsAsked(perHost: Option<nat>, asked: Option<string>, task: Task) {
    match task
    case Idle => true
    case AtOrigin(ref) => perHost.Some? && asked == Some(ref.origin)
    case AtGlobal(permit) => PermitAsFor(perHost, asked, permit)
    case Connected(permit, _) => PermitAsFor(perHost, asked, permit)
  }

  predicate PermitAsFor(perHost: Option<nat>, asked: Option<string>, permit: Option<Ref>) {
    if perHost.Some? && asked.Some? then permit.Some? && permit.value.origin == asked.value else permit.None?
  }

  ghost predicate AskedOk(s: State) {
    forall t :: t in s.tasks && !s.tasks[t].Idle? ==> t in s.asked && HoldsAsked(s.perHost, s.asked[t], s.tasks[t])
  }

  ghost predicate Inv(s: State) { SharedGates(s) && PermitsOk(s) && GlobalOk(s) && AskedOk(s) }

  lemma RefInUse(s: State, t: nat)
    requires t in s.tasks && RefOf(s.tasks[t]).Some?
    ensures RefOf(s.tasks[t]).value.sem in ReferencedSems(s.tasks)
  {
  }

  /** The cleanup never drops a semaphore that some task holds. */
  lemma CleanupKeepsRefs(s: State, t: nat)
    requires SharedGates(s) && s.perHost.Some? && t in s.tasks && RefOf(s.tasks[t]).Some?
    ensures var ref := RefOf(s.tasks[t]).value;
            var kept := Cleaned(s.gates, s.available, s.perHost.value, ReferencedSems(s.tasks));
            ref.origin in kept && kept[ref.origin] == ref.sem
  {
    RefInUse(s, t);
    assert RefOk(s, RefOf(s.tasks[t]).value);
  }

  lemma LookUpKeepsGates(s: State, t: nat, origin: string)
    requires SharedGates(s) && s.perHost.Some? && t in s.tasks
    ensures SharedGates(LookUp(s, t, origin))
  {
    var u := LookUp(s, t, origin);
    forall r | r in u.tasks && RefOf(u.tasks[r]).Some? ensures RefOk(u, RefOf(u.tasks[r]).value) {
      if r != t {
        assert RefOk(s, RefOf(s.tasks[r]).value);
        CleanupKeepsRefs(s, r);
      }
    }
  }

  /** A step that leaves the map alone and a task with the semaphore it had, or with none. */
  lemma TaskMoveKeepsGates(s: State, u: State, t: nat)
    requires SharedGates(s) && t in s.tasks && t in u.tasks && u.tasks == s.tasks[t := u.tasks[t]]
    requires u.gates == s.gates && u.available.Keys == s.available.Keys && u.nextSem == s.nextSem
    requires RefOf(u.tasks[t]).Some? ==> RefOf(u.tasks[t]) == RefOf(s.tasks[t])
    ensures SharedGates(u)
  {
    forall r | r in u.tasks && RefOf(u.tasks[r]).Some? ensures RefOk(u, RefOf(u.tasks[r]).value) {
      assert RefOk(s, RefOf(s.tasks[r]).value);
    }
  }

  lemma MoveLeavesGates(s: State, step: Step)
    requires Enabled(s, step) && !(step.Start? && step.origin.Some? && s.perHost.Some?)
    ensures var u := Move(s, step);
            && step.t in u.tasks && u.tasks == s.tasks[step.t := u.tasks[step.t]]
            && u.gates == s.gates && u.available.Keys == s.available.Keys && u.nextSem == s.nextSem
            && (RefOf(u.tasks[step.t]).Some? ==> RefOf(u.tasks[step.t]) == RefOf(s.tasks[step.t]))
  {
  }

  lemma StepKeepsGates(s: State, step: Step)
    requires SharedGates(s) && Enabled(s, step)
    ensures SharedGates(Apply(s, step))
  {
    var u := Apply(s, step);
    if step.Start? && step.origin.Some? && s.perHost.Some? {
      LookUpKeepsGates(s, step.t, step.origin.value);
    } else {
      MoveLeavesGates(s, step);
      TaskMoveKeepsGates(s, u, step.t);
    }
  }

  /** How a task step moves the free permits of one semaphore. */
  lemma TaskMovePermits(s: State, u: State, t: nat, sem: nat)
    requires PermitsOk(s) && t in s.tasks && t in u.tasks && u.tasks == s.tasks[t := u.tasks[t]]
    requires sem in s.available && sem in u.available && u.perHost == s.perHost
    requires u.available[sem] + PermitOn(sem)(u.tasks[t]) == s.available[sem] + PermitOn(sem)(s.tasks[t])
    ensures u.perHost.Some? && u.available[sem] + Sum(u.tasks, PermitOn(sem)) == u.perHost.value
  {
    SumUpdate(s.tasks, PermitOn(sem), t, u.tasks[t]);
  }

  lemma NewSemUnused(s: State)
    requires SharedGates(s)
    ensures Sum(s.tasks, PermitOn(s.nextSem)) == 0
  {
    forall t | t in s.tasks ensures PermitOn(s.nextSem)(s.tasks[t]) == 0 {
      if PermitOf(s.tasks[t]).Some? {
        assert RefOk(s, RefOf(s.tasks[t]).value);
      }
    }
    SumZero(s.tasks, PermitOn(s.nextSem));
  }

  lemma WaitingHoldsNothing(s: State, t: nat, ref: Ref, sem: nat)
    requires t in s.tasks && s.tasks[t].Idle?
    ensures Sum(s.tasks[t := AtOrigin(ref)], PermitOn(sem)) == Sum(s.tasks, PermitOn(sem))
  {
    SumUpdate(s.tasks, PermitOn(sem), t, AtOrigin(ref));
  }

  lemma LookUpKeepsPermits(s: State, t: nat, origin: string)
    requires SharedGates(s) && PermitsOk(s) && s.perHost.Some? && t in s.tasks && s.tasks[t].Idle?
    ensures PermitsOk(LookUp(s, t, origin))
  {
    var u := LookUp(s, t, origin);
    var ref := u.tasks[t].ref;
    assert u.tasks == s.tasks[t := AtOrigin(ref)];
    NewSemUnused(s);
    forall sem | sem in u.available
      ensures u.perHost.Some? && u.available[sem] + Sum(u.tasks, PermitOn(sem)) == u.perHost.value
    {
      WaitingHoldsNothing(s, t, ref, sem);
      assert sem == s.nextSem || sem in s.available;
    }
  }

  /** A step other than a lookup moves origin permits between the free ones and its task. */
  ghost predicate PermitMove(s: State, u: State, t: nat) {
    && t in s.tasks && t in u.tasks && u.tasks == s.tasks[t := u.tasks[t]]
    && u.perHost == s.perHost && u.available.Keys == s.available.Keys
    && forall sem :: sem in s.available ==>
         u.available[sem] + PermitOn(sem)(u.tasks[t]) == s.available[sem] + PermitOn(sem)(s.tasks[t])
  }

  lemma GiveBackMoves(s: State, t: nat)
    requires SharedGates(s) && t in s.tasks
    ensures PermitMove(s, WithTask(GiveBack(s, PermitOf(s.tasks[t])), t, Idle), t)
  {
    if RefOf(s.tasks[t]).Some? {
      assert RefOk(s, RefOf(s.tasks[t]).value);
    }
  }

  lemma TakeOriginMoves(s: State, t: nat)
    requires SharedGates(s) && Enabled(s, TakeOrigin(t))
    ensures PermitMove(s, Move(s, TakeOrigin(t)), t)
  {
  }

  /** The same permits for the same tasks. */
  predicate SamePermits(u: State, v: State) {
    v.tasks == u.tasks && v.available == u.available && v.perHost == u.perHost
  }

  lemma StepMovesPermits(s: State, step: Step)
    requires SharedGates(s) && Enabled(s, step)
    requires !(step.Start? && step.origin.Some? && s.perHost.Some?)
    ensures PermitMove(s, Apply(s, step), step.t)
  {
    var u := Apply(s, step);
    match step
    case TakeOrigin(t) =>
      TakeOriginMoves(s, t);
      assert SamePermits(Move(s, step), u);
    case GiveUp(t) =>
      GiveBackMoves(s, t);
      assert SamePermits(WithTask(GiveBack(s, PermitOf(s.tasks[t])), t, Idle), u);
    case Release(t) =>
      GiveBackMoves(s, t);
      assert SamePermits(WithTask(GiveBack(s, PermitOf(s.tasks[t])), t, Idle), u);
    case _ =>
  }

  lemma StepKeepsPermits(s: State, step: Step)
    requires SharedGates(s) && PermitsOk(s) && Enabled(s, step)
    ensures PermitsOk(Apply(s, step))
  {
    var u := Apply(s, step);
    if step.Start? && step.origin.Some? && s.perHost.Some? {
      LookUpKeepsPermits(s, step.t, step.origin.value);
    } else {
      StepMovesPermits(s, step);
      forall sem | sem in u.available
        ensures u.perHost.Some? && u.available[sem] + Sum(u.tasks, PermitOn(sem)) == u.perHost.value
      {
        TaskMovePermits(s, u, step.t, sem);
      }
    }
  }

  /** A step moves global permits between the free ones and the stepping task. */
  predicate GlobalMove(s: State, u: State, t: nat) {
    && t in s.tasks && t in u.tasks && u.tasks == s.tasks[t := u.tasks[t]]
    && u.perHost == s.perHost && u.maxGlobal == s.maxGlobal
    && (s.maxGlobal.Some? ==>
          u.globalAvailable + GlobalPermit(u.tasks[t]) == s.globalAvailable + GlobalPermit(s.tasks[t]))
    && (u.tasks[t].Connected? ==> u.tasks[t].global == s.maxGlobal.Some?)
  }

  lemma MoveMovesGlobal(s: State, step: Step)
    requires Enabled(s, step)
    ensures GlobalMove(s, Move(s, step), step.t)
  {
  }

  lemma StepMovesGlobal(s: State, step: Step)
    requires Enabled(s, step)
    ensures GlobalMove(s, Apply(s, step), step.t)
  {
    MoveMovesGlobal(s, step);
  }

  lemma GlobalMoveKeeps(s: State, u: State, t: nat)
    requires GlobalOk(s) && GlobalMove(s, u, t)
    ensures GlobalOk(u)
  {
    SumUpdate(s.tasks, GlobalPermit, t, u.tasks[t]);
  }

  lemma StepKeepsAsked(s: State, step: Step)
    requires AskedOk(s) && Enabled(s, step)
    ensures AskedOk(Apply(s, step))
  {
    MoveHoldsAsked(s, step, if step.Start? then step.origin else s.asked[step.t]);
  }

  lemma MoveHoldsAsked(s: State, step: Step, asked: Option<string>)
    requires Enabled(s, step)
    requires if step.Start? then asked == step.origin else HoldsAsked(s.perHost, asked, s.tasks[step.t])
    ensures var u := Move(s, step);
            && u.perHost == s.perHost && step.t in u.tasks && u.tasks == s.tasks[step.t := u.tasks[step.t]]
            && HoldsAsked(u.perHost, asked, u.tasks[step.t]) && u.asked == s.asked
  {
  }

  ghost predicate InvWith(s: State, perHost: Option<nat>, maxGlobal: Option<nat>) {
    Inv(s) && s.perHost == perHost && s.maxGlobal == maxGlobal
  }

  lemma StepKeeps(s: State, step: Step)
    requires Inv(s) && Enabled(s, step)
    ensures InvWith(Apply(s, step), s.perHost, s.maxGlobal)
  {
    StepKeepsGates(s, step);
    StepKeepsPermits(s, step);
    StepKeepsAsked(s, step);
    StepMovesGlobal(s, step);
    GlobalMoveKeeps(s, Apply(s, step), step.t);
  }

  lemma InvPreserved(perHost: Option<nat>, maxGlobal: Option<nat>)
    ensures Preserves(Successor, (s: State) => InvWith(s, perHost, maxGlobal))
  {
    forall s, t | InvWith(s, perHost, maxGlobal) && Successor(s, t) ensures InvWith(t, perHost, maxGlobal) {
      var step :| Enabled(s, step) && t == Apply(s, step);
      StepKeeps(s, step);
    }
  }

  lemma RunKeepsInv(run: seq<State>, i: nat)
    requires IsRun(Init, Successor, run) && i < |run|
    ensures InvWith(run[i], run[0].perHost, run[0].maxGlobal)
  {
    var perHost, maxGlobal := run[0].perHost, run[0].maxGlobal;
    SumZero(run[0].tasks, GlobalPermit);
    InvPreserved(perHost, maxGlobal);
    Later(Successor, (s: State) => InvWith(s, perHost, maxGlobal), run, 0, i);
  }

  // ----- Main results -----

  /** In every run, and despite the cleanup, all tasks that hold or wait for a permit of an
      origin share the one semaphore that the map has for it. */
  lemma OneSemaphorePerOrigin(run: seq<State>, i: nat, t: nat, r: nat)
    requires IsRun(Init, Successor, run) && i < |run| && t in run[i].tasks && r in run[i].tasks
    requires RefOf(run[i].tasks[t]).Some? && RefOf(run[i].tasks[r]).Some?
    ensures var a, b := RefOf(run[i].tasks[t]).value, RefOf(run[i].tasks[r]).value;
            && (a.origin == b.origin <==> a.sem == b.sem)
            && a.origin in run[i].gates && run[i].gates[a.origin] == a.sem
  {
    RunKeepsInv(run, i);
    assert RefOk(run[i], RefOf(run[i].tasks[t]).value);
    assert RefOk(run[i], RefOf(run[i].tasks[r]).value);
  }

  /** The live permits of an origin never exceed the per-host limit, and the live connection
      permits never exceed the global limit. */
  lemma LimitsHold(run: seq<State>, i: nat, origin: string)
    requires IsRun(Init, Successor, run) && i < |run|
    ensures run[0].perHost.Some? ==> Sum(run[i].tasks, PermitFor(origin)) <= run[0].perHost.value
    ensures run[0].maxGlobal.Some? ==> Sum(run[i].tasks, GlobalPermit) <= run[0].maxGlobal.value
    ensures forall t :: t in run[i].tasks && run[i].tasks[t].Connected? && run[0].maxGlobal.Some? ==>
                          GlobalPermit(run[i].tasks[t]) == 1
  {
    RunKeepsInv(run, i);
    var s := run[i];
    if s.perHost.Some? {
      if origin in s.gates {
        var sem := s.gates[origin];
        forall t | t in s.tasks ensures PermitFor(origin)(s.tasks[t]) <= PermitOn(sem)(s.tasks[t]) {
          PermitIsShared(s, t);
        }
        SumMonotone(s.tasks, PermitFor(origin), PermitOn(sem));
      } else {
        forall t | t in s.tasks ensures PermitFor(origin)(s.tasks[t]) == 0 {
          PermitIsShared(s, t);
        }
        SumZero(s.tasks, PermitFor(origin));
      }
    }
  }

  /** In every run, with a limit per host, a connected task holds a permit for exactly the origin
      it asked for. */
  lemma ConnectedHoldsAsked(run: seq<State>, i: nat, t: nat)
    requires IsRun(Init, Successor, run) && i < |run| && t in run[i].tasks && run[i].tasks[t].Connected?
    ensures t in run[i].asked
    ensures var permit := run[i].tasks[t].permit;
            if run[0].perHost.Some? && run[i].asked[t].Some?
            then permit.Some? && permit.value.origin == run[i].asked[t].value
            else permit.None?
  {
    RunKeepsInv(run, i);
  }

  /** The connections made for an origin, whatever permits their tasks hold. */
  function ConnectedTo(s: State, origin: string): set<nat> {
    set t | t in s.tasks && s.tasks[t].Connected? && t in s.asked && s.asked[t] == Some(origin)
  }

  function AllConnected(s: State): set<nat> { set t | t in s.tasks && s.tasks[t].Connected? }

  /** In every run the connections to one origin number at most the per-host limit, and all
      connections at most the global limit. */
  lemma ConnectionsWithinLimits(run: seq<State>, i: nat, origin: string)
    requires IsRun(Init, Successor, run) && i < |run|
    ensures run[0].perHost.Some? ==> |ConnectedTo(run[i], origin)| <= run[0].perHost.value
    ensures run[0].maxGlobal.Some? ==> |AllConnected(run[i])| <= run[0].maxGlobal.value
  {
    var s := run[i];
    RunKeepsInv(run, i);
    LimitsHold(run, i, origin);
    if run[0].perHost.Some? {
      forall t | t in ConnectedTo(s, origin) ensures t in s.tasks && PermitFor(origin)(s.tasks[t]) >= 1 {
        ConnectedHoldsAsked(run, i, t);
      }
      SumCovers(s.tasks, PermitFor(origin), ConnectedTo(s, origin));
    }
    if run[0].maxGlobal.Some? {
      SumCovers(s.tasks, GlobalPermit, AllConnected(s));
    }
  }

  /** A waiting task is held up only while every permit it could take is out. */
  lemma WaitsOnlyAtLimit(run: seq<State>, i: nat, t: nat)
    requires IsRun(Init, Successor, run) && i < |run| && t in run[i].tasks
    ensures run[i].tasks[t].AtOrigin? && !Enabled(run[i], TakeOrigin(t)) ==>
              && run[0].perHost.Some?
              && Sum(run[i].tasks, PermitOn(run[i].tasks[t].ref.sem)) == run[0].perHost.value
    ensures run[i].tasks[t].AtGlobal? && !Enabled(run[i], TakeGlobal(t)) ==>
              run[0].maxGlobal.Some? && Sum(run[i].tasks, GlobalPermit) == run[0].maxGlobal.value
  {
    RunKeepsInv(run, i);
    if run[i].tasks[t].AtOrigin? {
      assert RefOk(run[i], RefOf(run[i].tasks[t]).value);
    }
  }

  /** The free permits that a task asking for the origin would find. */
  function FreeFor(s: State, origin: string): nat
    requires s.perHost.Some?
  {
    if origin in s.gates && s.gates[origin] in s.available then s.available[s.gates[origin]] else s.perHost.value
  }

  /** With permits free, a task that asks for an origin can connect, and then holds a permit for
      that origin and, if there is a global limit, a global one; one permit of each is gone. */
  lemma AcquireSucceeds(run: seq<State>, i: nat, t: nat, origin: string) returns (u: State)
    requires IsRun(Init, Successor, run) && i < |run| && t in run[i].tasks && run[i].tasks[t].Idle?
    requires run[i].perHost.Some? && FreeFor(run[i], origin) > 0
    requires run[i].maxGlobal.Some? ==> run[i].globalAvailable > 0
    ensures Leads(Successor, run[i], u)
    ensures t in u.tasks && u.tasks[t].Connected? && u.tasks[t].global == run[i].maxGlobal.Some?
    ensures u.tasks[t].permit.Some? && u.tasks[t].permit.value.origin == origin
    ensures u.tasks == run[i].tasks[t := u.tasks[t]]
    ensures run[i].maxGlobal.Some? ==> u.globalAvailable == run[i].globalAvailable - 1
    ensures u.perHost.Some? && FreeFor(u, origin) == FreeFor(run[i], origin) - 1
  {
    RunKeepsInv(run, i);
    var b := GetsOriginPermit(run[i], t, origin);
    u := Apply(b, TakeGlobal(t));
    TakesGlobal(b, t);
    OneStep(b, TakeGlobal(t));
    LeadsTrans(Successor, run[i], b, u);
  }

  lemma OneStep(s: State, step: Step)
    requires Enabled(s, step)
    ensures Leads(Successor, s, Apply(s, step))
  {
    assert Successor(s, Apply(s, step));
    LeadsSelf(Successor, Apply(s, step));
    LeadsStep(Successor, s, Apply(s, step), Apply(s, step));
  }

  lemma GetsOriginPermit(s: State, t: nat, origin: string) returns (b: State)
    requires SharedGates(s) && s.perHost.Some? && Enabled(s, Start(t, Some(origin))) && FreeFor(s, origin) > 0
    ensures Leads(Successor, s, b)
    ensures t in b.tasks && b.tasks == s.tasks[t := b.tasks[t]] && b.tasks[t].AtGlobal?
    ensures b.tasks[t].permit.Some? && b.tasks[t].permit.value.origin == origin
    ensures b.perHost == s.perHost && b.maxGlobal == s.maxGlobal && b.globalAvailable == s.globalAvailable
    ensures FreeFor(b, origin) == FreeFor(s, origin) - 1
  {
    var a := Apply(s, Start(t, Some(origin)));
    LookUpFinds(s, t, origin);
    b := Apply(a, TakeOrigin(t));
    TakesOrigin(a, t);
    OneStep(s, Start(t, Some(origin)));
    OneStep(a, TakeOrigin(t));
    LeadsTrans(Successor, s, a, b);
  }

  lemma LookUpFinds(s: State, t: nat, origin: string)
    requires SharedGates(s) && s.perHost.Some? && Enabled(s, Start(t, Some(origin)))
    ensures var a := Apply(s, Start(t, Some(origin)));
            && t in a.tasks && a.tasks == s.tasks[t := a.tasks[t]]
            && a.tasks[t].AtOrigin? && a.tasks[t].ref.origin == origin
            && origin in a.gates && a.gates[origin] == a.tasks[t].ref.sem && a.gates[origin] in a.available
            && a.perHost == s.perHost && a.maxGlobal == s.maxGlobal && a.globalAvailable == s.globalAvailable
            && a.available[a.gates[origin]] == FreeFor(s, origin)
  {
  }

  lemma TakesOrigin(a: State, t: nat)
    requires a.perHost.Some? && Enabled(a, TakeOrigin(t))
    requires a.tasks[t].ref.origin in a.gates && a.gates[a.tasks[t].ref.origin] == a.tasks[t].ref.sem
    ensures var b := Apply(a, TakeOrigin(t));
            && t in b.tasks && b.tasks == a.tasks[t := b.tasks[t]] && b.tasks[t] == AtGlobal(Some(a.tasks[t].ref))
            && b.perHost == a.perHost && b.maxGlobal == a.maxGlobal && b.globalAvailable == a.globalAvailable
            && FreeFor(b, a.tasks[t].ref.origin) == FreeFor(a, a.tasks[t].ref.origin) - 1
  {
  }

  lemma TakesGlobal(b: State, t: nat)
    requires b.perHost.Some? && Enabled(b, TakeGlobal(t))
    ensures var u := Apply(b, TakeGlobal(t));
            && t in u.tasks && u.tasks == b.tasks[t := u.tasks[t]]
            && u.tasks[t] == Connected(b.tasks[t].permit, b.maxGlobal.Some?)
            && (b.maxGlobal.Some? ==> u.globalAvailable == b.globalAvailable - 1)
            && u.perHost == b.perHost && u.gates == b.gates && u.available == b.available
  {
  }

  /** The origins that some task holds or waits for. */
  function LiveOrigins(s: State): set<string> {
    set t | t in s.tasks && RefOf(s.tasks[t]).Some? :: RefOf(s.tasks[t]).value.origin
  }

  lemma PermitOutIsHeld(s: State, o: string)
    requires SharedGates(s) && PermitsOk(s) && s.perHost.Some? && o in s.gates
    requires s.available[s.gates[o]] < s.perHost.value
    ensures s.gates[o] in ReferencedSems(s.tasks)
  {
    var sem := s.gates[o];
    if forall t :: t in s.tasks ==> PermitOn(sem)(s.tasks[t]) == 0 {
      SumZero(s.tasks, PermitOn(sem));
    }
    var t :| t in s.tasks && PermitOn(sem)(s.tasks[t]) != 0;
    RefInUse(s, t);
  }

  /** In every run a lookup that cleans up leaves the new gate and exactly the gates of origins
      that somebody holds or waits for. */
  lemma CleanupLeavesLiveOrigins(run: seq<State>, i: nat, t: nat, origin: string)
    requires IsRun(Init, Successor, run) && i < |run| && Enabled(run[i], Start(t, Some(origin)))
    requires run[i].perHost.Some? && origin !in run[i].gates
    requires |run[i].gates| >= ORIGIN_GATE_CLEANUP_THRESHOLD
    ensures Apply(run[i], Start(t, Some(origin))).gates.Keys == LiveOrigins(run[i]) + {origin}
  {
    RunKeepsInv(run, i);
    var s := run[i];
    var kept := Cleaned(s.gates, s.available, s.perHost.value, ReferencedSems(s.tasks));
    forall o ensures o in kept <==> o in LiveOrigins(s) {
      if o in LiveOrigins(s) {
        var r :| r in s.tasks && RefOf(s.tasks[r]).Some? && RefOf(s.tasks[r]).value.origin == o;
        CleanupKeepsRefs(s, r);
      }
      if o in kept {
        KeptIsLive(s, o);
      }
    }
  }

  lemma KeptIsLive(s: State, o: string)
    requires SharedGates(s) && PermitsOk(s) && s.perHost.Some?
    requires o in Retained(s.gates, s.available, s.perHost.value, ReferencedSems(s.tasks))
    ensures o in LiveOrigins(s)
  {
    if s.gates[o] !in ReferencedSems(s.tasks) {
      PermitOutIsHeld(s, o);
    }
    var r :| r in s.tasks && RefOf(s.tasks[r]).Some? && RefOf(s.tasks[r]).value.sem == s.gates[o];
    assert RefOk(s, RefOf(s.tasks[r]).value);
    assert RefOf(s.tasks[r]).value.origin == o;
  }

  lemma PermitIsShared(s: State, t: nat)
    requires SharedGates(s) && t in s.tasks
    ensures PermitOf(s.tasks[t]).Some? ==> RefOk(s, PermitOf(s.tasks[t]).value)
  {
    if PermitOf(s.tasks[t]).Some? {
      assert RefOk(s, RefOf(s.tasks[t]).value);
    }
  }

  /** A task that gives up while acquiring the global permit returns its origin permit, and
      nothing else moves: no permit is lost. */
  lemma FailedGlobalAcquireReturnsPermit(run: seq<State>, i: nat, t: nat)
    requires IsRun(Init, Successor, run) && i < |run|
    requires t in run[i].tasks && run[i].tasks[t].AtGlobal? && run[i].tasks[t].permit.Some?
    ensures var s := run[i]; var u := Apply(s, GiveUp(t)); var sem := s.tasks[t].permit.value.sem;
            && sem in s.available && u.available == s.available[sem := s.available[sem] + 1]
            && u.tasks == s.tasks[t := Idle]
            && u.gates == s.gates && u.globalAvailable == s.globalAvailable
            && s.perHost.Some? && u.available[sem] <= s.perHost.value
  {
    RunKeepsInv(run, i);
    var s := run[i];
    assert RefOk(s, RefOf(s.tasks[t]).value);
    StepKeepsPermits(s, GiveUp(t));
  }

  /** When every task is idle again, every permit is back. */
  lemma AllPermitsReturn(run: seq<State>, i: nat)
    requires IsRun(Init, Successor, run) && i < |run|
    requires forall t :: t in run[i].tasks ==> run[i].tasks[t].Idle?
    ensures forall sem :: sem in run[i].available ==> Some(run[i].available[sem]) == run[0].perHost
    ensures run[0].maxGlobal.Some? ==> run[i].globalAvailable == run[0].maxGlobal.value
  {
    RunKeepsInv(run, i);
    var s := run[i];
    SumZero(s.tasks, GlobalPermit);
    forall sem | sem in s.available ensures Some(s.available[sem]) == run[0].perHost {
      SumZero(s.tasks, PermitOn(sem));
    }
  }
}
