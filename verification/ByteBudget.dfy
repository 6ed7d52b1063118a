/** The shared buffered-bytes counter under concurrent reservations
    (src/core/metrics/buffered.rs and src/core/response/budget.rs).

    Every compare-and-swap loop is split into its load, its swap attempts and the local
    update that follows, so that any number of reservations interleave between them.
    Memory is sequentially consistent: one load, one swap attempt or one local update is
    one step. A reservation is used by one owner at a time, as `&mut self` demands. */
module ByteBudget {
  import opened Basics
  import opened MapSums
  import opened Runs

  /** Where the owner of a reservation is. `seen` is the counter value last read. */
  datatype Phase =
    | Idle
    | Reserving(n: nat, seen: nat)
    | Granted(n: nat)
    | Releasing(n: nat, seen: nat)
    | Released(n: nat)
    | Dropping(seen: nat)

  /** `held` is the reservation's `reserved_bytes`. */
  datatype Holder = Holder(held: nat, phase: Phase)

  datatype State = State(counter: nat, limit: Option<nat>, holders: map<nat, Holder>)

  predicate OverLimit(limit: Option<nat>, bytes: nat) { limit.Some? && bytes > limit.value }

  /** The answer to a reservation. */
  datatype Verdict = Admitted | HeldOverflow | CounterOverflow | LimitExceeded

  /** What a counter of this value answers to a request for `n` bytes. */
  function Decide(limit: Option<nat>, counter: nat, n: nat): Verdict {
    if n == 0 then Admitted
    else if counter + n > USIZE_MAX then CounterOverflow
    else if OverLimit(limit, counter + n) then LimitExceeded
    else Admitted
  }

  /** The same for a reservation that already holds some bytes: its own count is checked first. */
  function DecideChunk(limit: Option<nat>, counter: nat, held: nat, n: nat): Verdict {
    if held + n > USIZE_MAX then HeldOverflow else Decide(limit, counter, n)
  }

  datatype Step =
    | StartResponse(id: nat)
    | BeginReserve(id: nat, n: nat)
    | TryReserve(id: nat, spurious: bool)
    | CommitReserve(id: nat)
    | BeginRelease(id: nat, n: nat)
    | TryRelease(id: nat, spurious: bool)
    | CommitRelease(id: nat)
    | BeginDrop(id: nat)
    | TryDrop(id: nat, spurious: bool)

  function With(s: State, id: nat, h: Holder): State { s.(holders := s.holders[id := h]) }

  /** An attempt of `compare_exchange_weak(seen, _)` fails on a changed counter and may
      fail spuriously. */
  predicate SwapFails(s: State, seen: nat, spurious: bool) { spurious || s.counter != seen }

  /** A release whose loaded value is smaller than the amount returns without swapping. */
  predicate SilentEscape(h: Holder) {
    match h.phase
    case Releasing(n, seen) => seen < n
    case Dropping(seen) => seen < h.held
    case _ => false
  }

  predicate Enabled(s: State, step: Step) {
    match step
    case StartResponse(id) => id !in s.holders
    case BeginReserve(id, n) => id in s.holders && s.holders[id].phase.Idle? && n <= USIZE_MAX
    case TryReserve(id, _) => id in s.holders && s.holders[id].phase.Reserving?
    case CommitReserve(id) => id in s.holders && s.holders[id].phase.Granted?
    case BeginRelease(id, n) => id in s.holders && s.holders[id].phase.Idle? && n <= USIZE_MAX
    case TryRelease(id, _) => id in s.holders && s.holders[id].phase.Releasing?
    case CommitRelease(id) => id in s.holders && s.holders[id].phase.Released?
    case BeginDrop(id) => id in s.holders && s.holders[id].phase.Idle?
    case TryDrop(id, _) => id in s.holders && s.holders[id].phase.Dropping?
  }

  function Apply(s: State, step: Step): State
    requires Enabled(s, step)
  {
    match step
    case StartResponse(id) => With(s, id, Holder(0, Idle))
    case BeginReserve(id, n) =>
      var h := s.holders[id];
      if h.held + n > USIZE_MAX || n == 0 then s
      else With(s, id, h.(phase := Reserving(n, s.counter)))
    case TryReserve(id, spurious) =>
      var h := s.holders[id];
      var next := h.phase.seen + h.phase.n;
      if Decide(s.limit, h.phase.seen, h.phase.n) != Admitted then With(s, id, h.(phase := Idle))
      else if SwapFails(s, h.phase.seen, spurious) then
        With(s, id, h.(phase := Reserving(h.phase.n, s.counter)))
      else With(s.(counter := next), id, h.(phase := Granted(h.phase.n)))
    case CommitReserve(id) =>
      var h := s.holders[id];
      With(s, id, Holder(h.held + h.phase.n, Idle))
    case BeginRelease(id, n) =>
      var h := s.holders[id];
      if n == 0 || h.held < n then s
      else With(s, id, h.(phase := Releasing(n, s.counter)))
    case TryRelease(id, spurious) =>
      var h := s.holders[id];
      if SilentEscape(h) then With(s, id, h.(phase := Released(h.phase.n)))
      else if SwapFails(s, h.phase.seen, spurious) then
        With(s, id, h.(phase := Releasing(h.phase.n, s.counter)))
      else With(s.(counter := h.phase.seen - h.phase.n), id, h.(phase := Released(h.phase.n)))
    case CommitRelease(id) =>
      var h := s.holders[id];
      With(s, id, Holder(if h.held < h.phase.n then 0 else h.held - h.phase.n, Idle))
    case BeginDrop(id) =>
      var h := s.holders[id];
      if h.held == 0 then s.(holders := s.holders - {id})
      else With(s, id, h.(phase := Dropping(s.counter)))
    case TryDrop(id, spurious) =>
      var h := s.holders[id];
      if SilentEscape(h) then s.(holders := s.holders - {id})
      else if SwapFails(s, h.phase.seen, spurious) then With(s, id, h.(phase := Dropping(s.counter)))
      else s.(counter := h.phase.seen - h.held, holders := s.holders - {id})
  }

  // ----- Runs -----

  ghost predicate Init(s: State) { s.counter == 0 && s.holders == map[] }

  ghost predicate Successor(s: State, t: State) {
    exists step :: Enabled(s, step) && t == Apply(s, step)
  }

  // ----- Conservation -----

  /** The bytes of the shared counter that this reservation accounts for: what it holds,
      adjusted while a granted or released amount is not yet booked locally. */
  function Charged(h: Holder): nat {
    match h.phase
    case Granted(n) => h.held + n
    case Released(n) => if h.held < n then 0 else h.held - n
    case _ => h.held
  }

  predicate HolderOk(h: Holder) {
    match h.phase
    case Releasing(n, seen) => n <= h.held <= seen
    case Released(n) => n <= h.held
    case Dropping(seen) => h.held <= seen
    case _ => true
  }

  ghost predicate Conserved(s: State) {
    && s.counter == Sum(s.holders, Charged)
    && s.counter <= USIZE_MAX
    && !OverLimit(s.limit, s.counter)
    && forall id :: id in s.holders ==> HolderOk(s.holders[id])
  }

  /** What one step does to the sum is what it does to the stepping reservation. */
  lemma StepSum(s: State, step: Step)
    requires Enabled(s, step)
    ensures var t := Apply(s, step);
            && Sum(t.holders, Charged) + ChargedAt(s, step.id) == Sum(s.holders, Charged) + ChargedAt(t, step.id)
            && ChargedAt(s, step.id) <= Sum(s.holders, Charged)
  {
    var t := Apply(s, step);
    var id := step.id;
    if id !in s.holders {
      SumInsert(s.holders, Charged, id, t.holders[id]);
    } else {
      SumAtLeast(s.holders, Charged, id);
      if id in t.holders {
        SumUpdate(s.holders, Charged, id, t.holders[id]);
        assert t.holders == s.holders[id := t.holders[id]];
      } else {
        SumRemove(s.holders, Charged, id);
        assert t.holders == s.holders - {id};
      }
    }
  }

  function ChargedAt(s: State, id: nat): nat { if id in s.holders then Charged(s.holders[id]) else 0 }

  lemma StepConserves(s: State, step: Step)
    requires Conserved(s) && Enabled(s, step)
    ensures Conserved(Apply(s, step)) && Apply(s, step).limit == s.limit
  {
    StepSum(s, step);
  }

  ghost predicate ConservedWithin(s: State, limit: Option<nat>) { Conserved(s) && s.limit == limit }

  lemma ConservedPreserved(limit: Option<nat>)
    ensures Preserves(Successor, (s: State) => ConservedWithin(s, limit))
  {
    forall s, t | ConservedWithin(s, limit) && Successor(s, t) ensures ConservedWithin(t, limit) {
      var step :| Enabled(s, step) && t == Apply(s, step);
      StepConserves(s, step);
    }
  }

  /** In every interleaving the counter is the sum of the held bytes, adjusted for steps
      in flight, and never exceeds the limit; the silent escape of a release never fires;
      and once every reservation is dropped the counter is zero. */
  lemma RunConserves(run: seq<State>, i: nat)
    requires IsRun(Init, Successor, run) && i < |run|
    ensures run[i].counter == Sum(run[i].holders, Charged)
    ensures !OverLimit(run[0].limit, run[i].counter) && run[i].counter <= USIZE_MAX
    ensures forall id :: id in run[i].holders ==> !SilentEscape(run[i].holders[id])
    ensures run[i].holders == map[] ==> run[i].counter == 0
  {
    var limit := run[0].limit;
    ConservedPreserved(limit);
    Later(Successor, (s: State) => ConservedWithin(s, limit), run, 0, i);
  }

  /** With no step in flight the counter is exactly the sum of `reserved_bytes`. */
  function Held(h: Holder): nat { h.held }

  lemma QuiescentCounter(run: seq<State>, i: nat)
    requires IsRun(Init, Successor, run) && i < |run|
    requires forall id :: id in run[i].holders ==> run[i].holders[id].phase.Idle?
    ensures run[i].counter == Sum(run[i].holders, Held)
  {
    RunConserves(run, i);
    SumAgree(run[i].holders);
  }

  lemma {:induction false} SumAgree(holders: map<nat, Holder>)
    requires forall id :: id in holders ==> holders[id].phase.Idle?
    ensures Sum(holders, Charged) == Sum(holders, Held)
    decreases |holders|
  {
    if holders == map[] {
    } else {
      var id :| id in holders;
      SumRemove(holders, Charged, id);
      SumRemove(holders, Held, id);
      SumAgree(holders - {id});
    }
  }

  // ----- Undisturbed operations -----

  predicate IdleHolder(s: State, id: nat) { id in s.holders && s.holders[id].phase.Idle? }

  /** The state after a whole `reserve_chunk` with nobody in between. */
  function AfterReserve(s: State, id: nat, n: nat): State
    requires IdleHolder(s, id)
  {
    var held := s.holders[id].held;
    if DecideChunk(s.limit, s.counter, held, n) != Admitted then s
    else With(s.(counter := s.counter + n), id, Holder(held + n, Idle))
  }

  function AfterRelease(s: State, id: nat, n: nat): State
    requires IdleHolder(s, id)
  {
    var held := s.holders[id].held;
    if held < n || s.counter < n then s else With(s.(counter := s.counter - n), id, Holder(held - n, Idle))
  }

  function AfterDrop(s: State, id: nat): State
    requires IdleHolder(s, id)
  {
    var held := s.holders[id].held;
    s.(counter := if s.counter < held then s.counter else s.counter - held, holders := s.holders - {id})
  }

  lemma Steps2(s: State, a: Step, b: Step)
    requires Enabled(s, a) && Enabled(Apply(s, a), b)
    ensures Leads(Successor, s, Apply(Apply(s, a), b))
  {
    var m := Apply(s, a);
    var t := Apply(m, b);
    assert Successor(s, m) && Successor(m, t);
    LeadsSelf(Successor, t);
    LeadsStep(Successor, m, t, t);
    LeadsStep(Successor, s, m, t);
  }

  lemma Steps3(s: State, a: Step, b: Step, c: Step)
    requires Enabled(s, a) && Enabled(Apply(s, a), b) && Enabled(Apply(Apply(s, a), b), c)
    ensures Leads(Successor, s, Apply(Apply(Apply(s, a), b), c))
  {
    assert Successor(s, Apply(s, a));
    Steps2(Apply(s, a), b, c);
    LeadsStep(Successor, s, Apply(s, a), Apply(Apply(Apply(s, a), b), c));
  }

  /** Undisturbed, the load, the swap and the local update of a reservation have the outcome
      that `DecideChunk` gives for the counter as it stands. */
  lemma ReserveInSteps(s: State, id: nat, n: nat)
    requires IdleHolder(s, id)
    ensures Leads(Successor, s, AfterReserve(s, id, n))
    ensures var u := AfterReserve(s, id, n);
            if DecideChunk(s.limit, s.counter, s.holders[id].held, n).Admitted?
            then u.counter == s.counter + n && u.holders == s.holders[id := Holder(s.holders[id].held + n, Idle)]
            else u == s
  {
    var held := s.holders[id].held;
    LeadsSelf(Successor, s);
    if held + n > USIZE_MAX {
    } else if n == 0 {
      assert AfterReserve(s, id, n) == s;
    } else if Decide(s.limit, s.counter, n) != Admitted {
      Steps2(s, BeginReserve(id, n), TryReserve(id, false));
      assert Apply(Apply(s, BeginReserve(id, n)), TryReserve(id, false)) == s;
    } else {
      Steps3(s, BeginReserve(id, n), TryReserve(id, false), CommitReserve(id));
      assert Apply(Apply(Apply(s, BeginReserve(id, n)), TryReserve(id, false)), CommitReserve(id))
             == AfterReserve(s, id, n);
    }
  }

  /** In every run, with no step in flight, a nonempty request is granted iff what all
      reservations hold, with it, is within the limit and the width of the counter. */
  lemma GrantedIff(run: seq<State>, i: nat, id: nat, n: nat)
    requires IsRun(Init, Successor, run) && i < |run| && id in run[i].holders && n > 0
    requires forall k :: k in run[i].holders ==> run[i].holders[k].phase.Idle?
    ensures var s := run[i]; var total := Sum(s.holders, Held) + n;
            (AfterReserve(s, id, n).holders == s.holders[id := Holder(s.holders[id].held + n, Idle)])
            <==> (total <= USIZE_MAX && (s.limit.Some? ==> total <= s.limit.value))
  {
    QuiescentCounter(run, i);
    SumAtLeast(run[i].holders, Held, id);
    var s := run[i];
    assert s.holders[id := Holder(s.holders[id].held + n, Idle)][id] != s.holders[id];
  }

  /** Likewise a release, from every state of a run: the counter covers what is held. */
  lemma ReleaseInSteps(s: State, id: nat, n: nat)
    requires Conserved(s) && IdleHolder(s, id)
    ensures Leads(Successor, s, AfterRelease(s, id, n))
    ensures n <= s.holders[id].held ==>
              && AfterRelease(s, id, n).counter == s.counter - n
              && AfterRelease(s, id, n).holders == s.holders[id := Holder(s.holders[id].held - n, Idle)]
  {
    SumAtLeast(s.holders, Charged, id);
    LeadsSelf(Successor, s);
    if n == 0 {
      assert AfterRelease(s, id, n) == s;
    } else if n <= s.holders[id].held {
      Steps3(s, BeginRelease(id, n), TryRelease(id, false), CommitRelease(id));
      assert Apply(Apply(Apply(s, BeginRelease(id, n)), TryRelease(id, false)), CommitRelease(id))
             == AfterRelease(s, id, n);
    }
  }

  lemma DropInSteps(s: State, id: nat)
    requires Conserved(s) && IdleHolder(s, id)
    ensures Leads(Successor, s, AfterDrop(s, id))
    ensures AfterDrop(s, id).counter == s.counter - s.holders[id].held
    ensures AfterDrop(s, id).holders == s.holders - {id}
  {
    SumAtLeast(s.holders, Charged, id);
    var dropped := AfterDrop(s, id);
    if s.holders[id].held == 0 {
      assert Enabled(s, BeginDrop(id)) && Apply(s, BeginDrop(id)) == dropped;
      assert Successor(s, dropped);
      LeadsSelf(Successor, dropped);
      LeadsStep(Successor, s, dropped, dropped);
    } else {
      Steps2(s, BeginDrop(id), TryDrop(id, false));
      assert Apply(Apply(s, BeginDrop(id)), TryDrop(id, false)) == dropped;
    }
  }
}
