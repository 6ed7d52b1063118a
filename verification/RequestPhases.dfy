/** The per-request telemetry machine: the pool-acquire phase, the connection use and
    cancellation (src/core/telemetry.rs).

    Every operation holds the request's state lock while it offers its events, so an
    interleaving of any number of threads is a sequence of operations. */
module RequestPhases {
  import opened Basics

  datatype Outcome = Success | Error | Closed | Cancelled

  /** Error kinds are told apart only as far as the machine does. */
  datatype ErrorType = CancelledError | OtherError(code: nat)

  datatype Event =
    | AcquireStarted(origin: string, hop: nat)
    | AcquireFinished(origin: string, hop: nat, outcome: Outcome, error: Option<ErrorType>)
    | Reused(origin: string, hop: nat)
    | Aborted(origin: string, hop: nat, outcome: Outcome, error: Option<ErrorType>)

  datatype Phase = Phase(origin: string, hop: nat)

  /** A connection use; its token is a fresh allocation. */
  datatype Use = Use(token: nat, origin: string, hop: nat)

  /** History of connection uses; an end is silent or offers an abort. */
  datatype Mark = Began(token: nat) | Ended(token: nat, aborted: bool)

  datatype State = State(
    active: Option<Phase>,
    connectionUse: Option<Use>,
    cancelled: bool,
    terminalError: Option<ErrorType>,
    hop: nat,
    nextToken: nat,
    offered: seq<Event>,
    marks: seq<Mark>)

  datatype Op =
    | StoreHop(hop: nat)
    | BeginPhase(origin: string, hop: nat)
    | FinishPhase(outcome: Outcome, error: Option<ErrorType>)
    | FinishActivePhaseError(failure: ErrorType)
    | BeginUse(origin: string, reused: bool)
    | FinishUse(token: nat, terminal: Option<(Outcome, Option<ErrorType>)>)
    | AbortActiveUse(outcome: Outcome, error: Option<ErrorType>)
    | Cancel
    | DirectAbort(origin: string, hop: nat, outcome: Outcome, error: Option<ErrorType>)

  function Offer(s: State, e: Event): State { s.(offered := s.offered + [e]) }

  /** Taking the active phase and offering its end. */
  function EndPhase(s: State, outcome: Outcome, error: Option<ErrorType>): State {
    if s.active.None? then s
    else Offer(s.(active := None), AcquireFinished(s.active.value.origin, s.active.value.hop, outcome, error))
  }

  /** Taking the connection use. */
  function WithoutUse(s: State, aborted: bool): State {
    if s.connectionUse.None? then s
    else s.(connectionUse := None, marks := s.marks + [Ended(s.connectionUse.value.token, aborted)])
  }

  function AbortUse(s: State, outcome: Outcome, error: Option<ErrorType>): State {
    if s.connectionUse.None? then s
    else Offer(WithoutUse(s, true), Aborted(s.connectionUse.value.origin, s.connectionUse.value.hop, outcome, error))
  }

  predicate Owns(s: State, token: nat) { s.connectionUse.Some? && s.connectionUse.value.token == token }

  function Apply(s: State, op: Op): State {
    match op
    case StoreHop(hop) => s.(hop := hop)
    case BeginPhase(origin, hop) =>
      if s.cancelled || s.active.Some? then s
      else Offer(s.(active := Some(Phase(origin, hop))), AcquireStarted(origin, hop))
    case FinishPhase(outcome, error) => EndPhase(s, outcome, error)
    case FinishActivePhaseError(error) =>
      if s.cancelled then s else EndPhase(s.(terminalError := Some(error)), Error, Some(error))
    case BeginUse(origin, reused) =>
      if s.cancelled || s.connectionUse.Some? then s.(nextToken := s.nextToken + 1)
      else
        var t := if reused then Offer(s, Reused(origin, s.hop)) else s;
        t.(connectionUse := Some(Use(s.nextToken, origin, s.hop)),
           nextToken := s.nextToken + 1, marks := s.marks + [Began(s.nextToken)])
    case FinishUse(token, terminal) =>
      if !Owns(s, token) then s
      else if terminal.None? then WithoutUse(s, false)
      else AbortUse(s, terminal.value.0, terminal.value.1)
    case AbortActiveUse(outcome, error) => AbortUse(s, outcome, error)
    case Cancel =>
      if s.cancelled then s
      else
        var t := s.(cancelled := true, terminalError := Some(CancelledError));
        AbortUse(EndPhase(t, Cancelled, Some(CancelledError)), Cancelled, Some(CancelledError))
    case DirectAbort(origin, hop, outcome, error) => Offer(s, Aborted(origin, hop, outcome, error))
  }

  const START: State := State(None, None, false, None, 0, 0, [], [])

  /** The state after a sequence of operations. */
  function Run(s: State, ops: seq<Op>): State {
    if ops == [] then s else Apply(Run(s, ops[..|ops| - 1]), ops[|ops| - 1])
  }

  // ----- The machine as an object -----

  class RequestTelemetry {
    var active: Option<Phase>
    var connectionUse: Option<Use>
    var cancelled: bool
    var terminalError: Option<ErrorType>
    var redirectHop: nat
    var nextToken: nat
    var offered: seq<Event>
    ghost var marks: seq<Mark>

    ghost function View(): State
      reads this
    {
      State(active, connectionUse, cancelled, terminalError, redirectHop, nextToken, offered, marks)
    }

    constructor ()
      ensures View() == START
    {
      active, connectionUse, cancelled, terminalError := None, None, false, None;
      redirectHop, nextToken, offered, marks := 0, 0, [], [];
    }

    method Record(e: Event)
      modifies `offered
      ensures View() == Offer(old(View()), e)
    {
      offered := offered + [e];
    }

    method BeginPoolAcquire(origin: string, hop: nat)
      modifies this
      ensures View() == Apply(Apply(old(View()), StoreHop(hop)), BeginPhase(origin, hop))
    {
      redirectHop := hop;
      if cancelled || active.Some? {
        return;
      }
      active := Some(Phase(origin, hop));
      Record(AcquireStarted(origin, hop));
    }

    method FinishPhase(outcome: Outcome, error: Option<ErrorType>) returns (ended: bool)
      modifies this
      ensures View() == Apply(old(View()), Op.FinishPhase(outcome, error))
      ensures ended == old(active.Some?)
    {
      if active.None? {
        return false;
      }
      var phase := active.value;
      active := None;
      Record(AcquireFinished(phase.origin, phase.hop, outcome, error));
      return true;
    }

    method FinishActivePhaseError(error: ErrorType)
      modifies this
      ensures View() == Apply(old(View()), Op.FinishActivePhaseError(error))
    {
      if cancelled {
        return;
      }
      terminalError := Some(error);
      var _ := FinishPhase(Error, Some(error));
    }

    method BeginConnectionUse(origin: string, reused: bool) returns (token: Option<nat>)
      modifies this
      ensures View() == Apply(old(View()), BeginUse(origin, reused))
      ensures token.Some? <==> !old(cancelled) && old(connectionUse.None?)
      ensures token.Some? ==> Owns(View(), token.value)
    {
      var t := nextToken;
      nextToken := nextToken + 1;
      if cancelled || connectionUse.Some? {
        return None;
      }
      if reused {
        Record(Reused(origin, redirectHop));
      }
      connectionUse := Some(Use(t, origin, redirectHop));
      marks := marks + [Began(t)];
      return Some(t);
    }

    method TakeUse(ghost aborted: bool) returns (use: Option<Use>)
      modifies this
      ensures use == old(connectionUse) && View() == WithoutUse(old(View()), aborted)
    {
      use := connectionUse;
      if use.Some? {
        connectionUse := None;
        marks := marks + [Ended(use.value.token, aborted)];
      }
    }

    method FinishConnectionUse(token: nat, terminal: Option<(Outcome, Option<ErrorType>)>) returns (ended: bool)
      modifies this
      ensures View() == Apply(old(View()), FinishUse(token, terminal))
      ensures ended == old(Owns(View(), token))
    {
      if connectionUse.None? || connectionUse.value.token != token {
        return false;
      }
      var use := TakeUse(terminal.Some?);
      if terminal.Some? {
        Record(Aborted(use.value.origin, use.value.hop, terminal.value.0, terminal.value.1));
      }
      return true;
    }

    method AbortActiveConnectionUse(outcome: Outcome, error: Option<ErrorType>) returns (ended: bool)
      modifies this
      ensures View() == Apply(old(View()), AbortActiveUse(outcome, error))
      ensures ended == old(connectionUse.Some?)
    {
      var use := TakeUse(true);
      if use.None? {
        return false;
      }
      Record(Aborted(use.value.origin, use.value.hop, outcome, error));
      return true;
    }

    method Cancel()
      modifies this
      ensures View() == Apply(old(View()), Op.Cancel)
    {
      if cancelled {
        return;
      }
      cancelled := true;
      terminalError := Some(CancelledError);
      var phase := active;
      active := None;
      var use := TakeUse(true);
      if phase.Some? {
        Record(AcquireFinished(phase.value.origin, phase.value.hop, Cancelled, Some(CancelledError)));
      }
      if use.Some? {
        Record(Aborted(use.value.origin, use.value.hop, Cancelled, Some(CancelledError)));
      }
    }
  }

  // ----- Alternation -----

  predicate OfPhase(e: Event) { e.AcquireStarted? || e.AcquireFinished? }

  function PhaseEvents(events: seq<Event>): seq<Event> {
    if events == [] then []
    else
      var e := events[|events| - 1];
      PhaseEvents(events[..|events| - 1]) + if OfPhase(e) then [e] else []
  }

  /** Started and Finished in strict alternation, each Finished with the origin and hop of its
      Started; `open` is the phase left open at the end. */
  predicate Alternates(events: seq<Event>, open: Option<Phase>) {
    if events == [] then open.None?
    else
      var before := events[..|events| - 1];
      match events[|events| - 1]
      case AcquireStarted(origin, hop) => open == Some(Phase(origin, hop)) && Alternates(before, None)
      case AcquireFinished(origin, hop, _, _) => open.None? && Alternates(before, Some(Phase(origin, hop)))
      case _ => false
  }

  /** One connection use at a time, each ended at most once and by nobody else's token. */
  predicate UsesAlternate(marks: seq<Mark>, current: Option<nat>) {
    if marks == [] then current.None?
    else
      var before := marks[..|marks| - 1];
      match marks[|marks| - 1]
      case Began(token) => current == Some(token) && UsesAlternate(before, None)
      case Ended(token, _) => current.None? && UsesAlternate(before, Some(token))
  }

  function CurrentToken(s: State): Option<nat> {
    if s.connectionUse.Some? then Some(s.connectionUse.value.token) else None
  }

  /** Tokens are fresh: every use in the history is older than the next token, and a token
      begins only once. */
  predicate TokensFresh(s: State) {
    && (forall i :: 0 <= i < |s.marks| ==> s.marks[i].token < s.nextToken)
    && (forall i, j :: 0 <= i < j < |s.marks| && s.marks[i].Began? && s.marks[j].Began? ==>
          s.marks[i].token < s.marks[j].token)
  }

  predicate PhaseOk(s: State) { Alternates(PhaseEvents(s.offered), s.active) }

  predicate UsesOk(s: State) { UsesAlternate(s.marks, CurrentToken(s)) && TokensFresh(s) }

  predicate CancelOk(s: State) { s.cancelled ==> s.active.None? && s.connectionUse.None? }

  predicate Inv(s: State) { PhaseOk(s) && UsesOk(s) && CancelOk(s) }

  lemma PhaseEventsSnoc(events: seq<Event>, e: Event)
    ensures PhaseEvents(events + [e]) == if OfPhase(e) then PhaseEvents(events) + [e] else PhaseEvents(events)
  {
    assert (events + [e])[..|events|] == events;
    assert PhaseEvents(events) + [] == PhaseEvents(events);
  }

  lemma AlternatesSnoc(events: seq<Event>, e: Event)
    ensures e.AcquireStarted? && Alternates(events, None) ==>
              Alternates(events + [e], Some(Phase(e.origin, e.hop)))
    ensures e.AcquireFinished? && Alternates(events, Some(Phase(e.origin, e.hop))) ==> Alternates(events + [e], None)
  {
    assert (events + [e])[..|events|] == events;
  }

  lemma UsesSnoc(marks: seq<Mark>, m: Mark)
    ensures m.Began? && UsesAlternate(marks, None) ==> UsesAlternate(marks + [m], Some(m.token))
    ensures m.Ended? && UsesAlternate(marks, Some(m.token)) ==> UsesAlternate(marks + [m], None)
  {
    assert (marks + [m])[..|marks|] == marks;
  }

  // The phase half.

  lemma BeginPhaseKeeps(s: State, origin: string, hop: nat)
    requires PhaseOk(s)
    ensures PhaseOk(Apply(s, BeginPhase(origin, hop)))
  {
    if !s.cancelled && s.active.None? {
      StartKeeps(s, Phase(origin, hop));
    }
  }

  lemma StartKeeps(s: State, phase: Phase)
    requires PhaseOk(s) && s.active.None?
    ensures PhaseOk(Offer(s.(active := Some(phase)), AcquireStarted(phase.origin, phase.hop)))
  {
    var e := AcquireStarted(phase.origin, phase.hop);
    PhaseEventsSnoc(s.offered, e);
    AlternatesSnoc(PhaseEvents(s.offered), e);
  }

  lemma EndPhaseKeeps(s: State, outcome: Outcome, error: Option<ErrorType>)
    requires PhaseOk(s)
    ensures PhaseOk(EndPhase(s, outcome, error))
  {
    if s.active.Some? {
      var e := AcquireFinished(s.active.value.origin, s.active.value.hop, outcome, error);
      PhaseEventsSnoc(s.offered, e);
      AlternatesSnoc(PhaseEvents(s.offered), e);
    }
  }

  /** An event of the other machine leaves the phase alone. */
  lemma OtherEventKeeps(s: State, e: Event)
    requires PhaseOk(s) && !OfPhase(e)
    ensures PhaseOk(Offer(s, e))
  {
    PhaseEventsSnoc(s.offered, e);
  }

  lemma AbortUseKeepsPhase(s: State, outcome: Outcome, error: Option<ErrorType>)
    requires PhaseOk(s)
    ensures PhaseOk(AbortUse(s, outcome, error))
  {
    if s.connectionUse.Some? {
      var use := s.connectionUse.value;
      OtherEventKeeps(WithoutUse(s, true), Aborted(use.origin, use.hop, outcome, error));
    }
  }

  lemma CancelKeepsPhase(s: State)
    requires PhaseOk(s)
    ensures PhaseOk(Apply(s, Cancel))
  {
    var t := s.(cancelled := true, terminalError := Some(CancelledError));
    EndPhaseKeeps(t, Cancelled, Some(CancelledError));
    AbortUseKeepsPhase(EndPhase(t, Cancelled, Some(CancelledError)), Cancelled, Some(CancelledError));
  }

  lemma FinishUseKeepsPhase(s: State, token: nat, terminal: Option<(Outcome, Option<ErrorType>)>)
    requires PhaseOk(s)
    ensures PhaseOk(Apply(s, FinishUse(token, terminal)))
  {
    if terminal.Some? {
      AbortUseKeepsPhase(s, terminal.value.0, terminal.value.1);
    }
  }

  lemma PhaseStep(s: State, op: Op)
    requires PhaseOk(s)
    ensures PhaseOk(Apply(s, op))
  {
    match op
    case StoreHop(_) =>
    case BeginPhase(origin, hop) => BeginPhaseKeeps(s, origin, hop);
    case FinishPhase(outcome, error) => EndPhaseKeeps(s, outcome, error);
    case FinishActivePhaseError(error) => EndPhaseKeeps(s.(terminalError := Some(error)), Error, Some(error));
    case BeginUse(origin, reused) => OtherEventKeeps(s, Reused(origin, s.hop));
    case FinishUse(token, terminal) => FinishUseKeepsPhase(s, token, terminal);
    case AbortActiveUse(outcome, error) => AbortUseKeepsPhase(s, outcome, error);
    case Cancel => CancelKeepsPhase(s);
    case DirectAbort(origin, hop, outcome, error) => OtherEventKeeps(s, Aborted(origin, hop, outcome, error));
  }

  // The use half.

  /** The uses depend on these fields only. */
  predicate SameUses(s: State, t: State) {
    t.marks == s.marks && t.nextToken == s.nextToken && t.connectionUse == s.connectionUse
  }

  lemma EndPhaseSameUses(s: State, outcome: Outcome, error: Option<ErrorType>)
    ensures SameUses(s, EndPhase(s, outcome, error))
  {
  }

  lemma CurrentIsOld(s: State)
    requires UsesOk(s) && s.connectionUse.Some?
    ensures s.connectionUse.value.token < s.nextToken
  {
    assert s.marks != [] && s.marks[|s.marks| - 1].token == s.connectionUse.value.token;
  }

  lemma BeginMarkKeeps(s: State, use: Use)
    requires UsesOk(s) && s.connectionUse.None? && use.token == s.nextToken
    ensures UsesOk(s.(connectionUse := Some(use), nextToken := s.nextToken + 1, marks := s.marks + [Began(use.token)]))
  {
    UsesSnoc(s.marks, Began(use.token));
  }

  lemma SkipTokenKeeps(s: State)
    requires UsesOk(s)
    ensures UsesOk(s.(nextToken := s.nextToken + 1))
  {
  }

  lemma EndMarkKeeps(s: State, aborted: bool)
    requires UsesOk(s)
    ensures UsesOk(WithoutUse(s, aborted)) && WithoutUse(s, aborted).connectionUse.None?
  {
    if s.connectionUse.Some? {
      CurrentIsOld(s);
      UsesSnoc(s.marks, Ended(s.connectionUse.value.token, aborted));
    }
  }

  lemma BeginUseKeepsUses(s: State, origin: string, reused: bool)
    requires UsesOk(s)
    ensures UsesOk(Apply(s, BeginUse(origin, reused)))
  {
    SkipTokenKeeps(s);
    if s.connectionUse.None? {
      BeginMarkKeeps(s, Use(s.nextToken, origin, s.hop));
    }
  }

  lemma CancelKeepsUses(s: State)
    requires UsesOk(s)
    ensures UsesOk(Apply(s, Cancel))
  {
    var t := s.(cancelled := true, terminalError := Some(CancelledError));
    EndPhaseSameUses(t, Cancelled, Some(CancelledError));
    EndMarkKeeps(EndPhase(t, Cancelled, Some(CancelledError)), true);
  }

  lemma UsesStep(s: State, op: Op)
    requires UsesOk(s)
    ensures UsesOk(Apply(s, op))
  {
    match op
    case BeginUse(origin, reused) => BeginUseKeepsUses(s, origin, reused);
    case FinishUse(_, terminal) => EndMarkKeeps(s, terminal.Some?);
    case AbortActiveUse(_, _) => EndMarkKeeps(s, true);
    case Cancel => CancelKeepsUses(s);
    case _ =>
      assert SameUses(s, Apply(s, op));
  }

  lemma CancelStep(s: State, op: Op)
    requires CancelOk(s)
    ensures CancelOk(Apply(s, op))
  {
  }

  lemma OpKeeps(s: State, op: Op)
    requires Inv(s)
    ensures Inv(Apply(s, op))
  {
    PhaseStep(s, op);
    UsesStep(s, op);
    CancelStep(s, op);
  }

  lemma {:induction false} RunKeeps(ops: seq<Op>)
    ensures Inv(Run(START, ops))
  {
    if ops == [] {
    } else {
      RunKeeps(ops[..|ops| - 1]);
      OpKeeps(Run(START, ops[..|ops| - 1]), ops[|ops| - 1]);
    }
  }

  // ----- Main results -----

  /** In every run the offered acquire events strictly alternate, and each Finished belongs to
      the Started before it. */
  lemma AcquireEventsAlternate(ops: seq<Op>)
    ensures Alternates(PhaseEvents(Run(START, ops).offered), Run(START, ops).active)
  {
    RunKeeps(ops);
  }

  lemma {:induction false} EndedIsLast(marks: seq<Mark>, current: Option<nat>, i: nat, j: nat)
    requires UsesAlternate(marks, current) && i < j < |marks|
    requires marks[i].Ended? && marks[j].Ended? && marks[i].token == marks[j].token
    ensures exists b :: i < b < j && marks[b] == Began(marks[j].token)
    decreases |marks|
  {
    var before := marks[..|marks| - 1];
    var last := marks[|marks| - 1];
    if j < |marks| - 1 {
      EndedIsLast(before, if last.Began? then None else Some(last.token), i, j);
      var b :| i < b < j && before[b] == Began(marks[j].token);
    } else {
      assert before != [] && before[|before| - 1].Began? && before[|before| - 1].token == last.token;
      assert marks[|before| - 1] == Began(marks[j].token);
    }
  }

  /** In every run each connection use is ended at most once, whether by its token, by an
      abort or by cancel. */
  lemma UseEndsOnce(ops: seq<Op>, i: nat, j: nat)
    requires var marks := Run(START, ops).marks;
             i < j < |marks| && marks[i].Ended? && marks[j].Ended?
    ensures Run(START, ops).marks[i].token != Run(START, ops).marks[j].token
  {
    RunKeeps(ops);
    var marks := Run(START, ops).marks;
    if marks[i].token == marks[j].token {
      EndedIsLast(marks, CurrentToken(Run(START, ops)), i, j);
      var b :| i < b < j && marks[b] == Began(marks[j].token);
      EndFollowsBegin(marks, CurrentToken(Run(START, ops)), i);
    }
  }

  lemma {:induction false} EndFollowsBegin(marks: seq<Mark>, current: Option<nat>, i: nat)
    requires UsesAlternate(marks, current) && i < |marks| && marks[i].Ended?
    ensures i > 0 && marks[i - 1] == Began(marks[i].token)
    decreases |marks|
  {
    var before := marks[..|marks| - 1];
    var last := marks[|marks| - 1];
    if i < |marks| - 1 {
      EndFollowsBegin(before, if last.Began? then None else Some(last.token), i);
    } else {
      assert before != [] && before[|before| - 1].Began?;
    }
  }

  // ----- One abort event per use -----

  function AbortEvents(events: seq<Event>): nat {
    if events == [] then 0
    else AbortEvents(events[..|events| - 1]) + if events[|events| - 1].Aborted? then 1 else 0
  }

  function AbortedEnds(marks: seq<Mark>): nat {
    if marks == [] then 0
    else
      var m := marks[|marks| - 1];
      AbortedEnds(marks[..|marks| - 1]) + if m.Ended? && m.aborted then 1 else 0
  }

  lemma AbortEventsSnoc(events: seq<Event>, e: Event)
    ensures AbortEvents(events + [e]) == AbortEvents(events) + if e.Aborted? then 1 else 0
  {
    assert (events + [e])[..|events|] == events;
  }

  lemma AbortedEndsSnoc(marks: seq<Mark>, m: Mark)
    ensures AbortedEnds(marks + [m]) == AbortedEnds(marks) + if m.Ended? && m.aborted then 1 else 0
  {
    assert (marks + [m])[..|marks|] == marks;
  }

  /** The abort events not accounted for by an end of a use. */
  function Unaccounted(s: State): int { AbortEvents(s.offered) - AbortedEnds(s.marks) }

  lemma EndPhaseAborts(s: State, outcome: Outcome, error: Option<ErrorType>)
    ensures Unaccounted(EndPhase(s, outcome, error)) == Unaccounted(s)
  {
    if s.active.Some? {
      AbortEventsSnoc(s.offered, AcquireFinished(s.active.value.origin, s.active.value.hop, outcome, error));
    }
  }

  lemma EndUseAborts(s: State, outcome: Outcome, error: Option<ErrorType>)
    ensures Unaccounted(AbortUse(s, outcome, error)) == Unaccounted(s)
    ensures Unaccounted(WithoutUse(s, false)) == Unaccounted(s)
  {
    if s.connectionUse.Some? {
      var use := s.connectionUse.value;
      AbortEventsSnoc(s.offered, Aborted(use.origin, use.hop, outcome, error));
      AbortedEndsSnoc(s.marks, Ended(use.token, true));
      AbortedEndsSnoc(s.marks, Ended(use.token, false));
    }
  }

  lemma BeginUseAborts(s: State, origin: string, reused: bool)
    ensures Unaccounted(Apply(s, BeginUse(origin, reused))) == Unaccounted(s)
  {
    AbortEventsSnoc(s.offered, Reused(origin, s.hop));
    AbortedEndsSnoc(s.marks, Began(s.nextToken));
  }

  lemma FinishUseAborts(s: State, token: nat, terminal: Option<(Outcome, Option<ErrorType>)>)
    ensures Unaccounted(Apply(s, FinishUse(token, terminal))) == Unaccounted(s)
  {
    if terminal.Some? {
      EndUseAborts(s, terminal.value.0, terminal.value.1);
    } else {
      EndUseAborts(s, Success, None);
    }
  }

  lemma CancelAborts(s: State)
    ensures Unaccounted(Apply(s, Cancel)) == Unaccounted(s)
  {
    var t := s.(cancelled := true, terminalError := Some(CancelledError));
    EndPhaseAborts(t, Cancelled, Some(CancelledError));
    EndUseAborts(EndPhase(t, Cancelled, Some(CancelledError)), Cancelled, Some(CancelledError));
  }

  lemma OpAborts(s: State, op: Op)
    ensures Unaccounted(Apply(s, op)) == Unaccounted(s) + if op.DirectAbort? then 1 else 0
  {
    match op
    case StoreHop(_) =>
    case BeginPhase(origin, hop) => AbortEventsSnoc(s.offered, AcquireStarted(origin, hop));
    case FinishPhase(outcome, error) => EndPhaseAborts(s, outcome, error);
    case FinishActivePhaseError(error) => EndPhaseAborts(s.(terminalError := Some(error)), Error, Some(error));
    case BeginUse(origin, reused) => BeginUseAborts(s, origin, reused);
    case FinishUse(token, terminal) => FinishUseAborts(s, token, terminal);
    case AbortActiveUse(outcome, error) => EndUseAborts(s, outcome, error);
    case Cancel => CancelAborts(s);
    case DirectAbort(origin, hop, outcome, error) => AbortEventsSnoc(s.offered, Aborted(origin, hop, outcome, error));
  }

  /** In every run the offered abort events are exactly one for each use that ended aborted and
      one for each direct call. A use ends once, so it never costs two abort events. */
  lemma {:induction false} OneAbortEventPerUse(ops: seq<Op>)
    ensures var s := Run(START, ops); AbortEvents(s.offered) == AbortedEnds(s.marks) + |DirectAborts(ops)|
  {
    if ops == [] {
    } else {
      OneAbortEventPerUse(ops[..|ops| - 1]);
      OpAborts(Run(START, ops[..|ops| - 1]), ops[|ops| - 1]);
    }
  }

  function DirectAborts(ops: seq<Op>): seq<Event> {
    if ops == [] then []
    else
      var op := ops[|ops| - 1];
      DirectAborts(ops[..|ops| - 1]) +
      if op.DirectAbort? then [Aborted(op.origin, op.hop, op.outcome, op.error)] else []
  }

  /** After cancel neither machine offers anything: the only later events are those of direct
      `connection_aborted` calls, which do not look at the state. */
  lemma {:induction false} NothingAfterCancel(before: seq<Op>, after: seq<Op>)
    requires Run(START, before).cancelled
    ensures var s := Run(START, before); var t := Run(s, after);
            && t.offered == s.offered + DirectAborts(after)
            && t.marks == s.marks
            && t.cancelled && t.active.None? && t.connectionUse.None?
  {
    var s := Run(START, before);
    RunKeeps(before);
    if after == [] {
    } else {
      NothingAfterCancel(before, after[..|after| - 1]);
    }
  }

  predicate HasDirectAbort(ops: seq<Op>) { exists i :: 0 <= i < |ops| && ops[i].DirectAbort? }

  lemma {:induction false} DirectAbortsNone(ops: seq<Op>)
    ensures DirectAborts(ops) == [] <==> !HasDirectAbort(ops)
  {
    if ops == [] {
    } else {
      DirectAbortsNone(ops[..|ops| - 1]);
      assert ops == ops[..|ops| - 1] + [ops[|ops| - 1]];
      if HasDirectAbort(ops[..|ops| - 1]) {
        var i :| 0 <= i < |ops| - 1 && ops[..|ops| - 1][i].DirectAbort?;
        assert ops[i].DirectAbort?;
      }
    }
  }

  /** So a cancelled request is silent from then on exactly when nobody calls
      `connection_aborted` directly. */
  lemma SilentAfterCancelIff(before: seq<Op>, after: seq<Op>)
    requires Run(START, before).cancelled
    ensures (Run(Run(START, before), after).offered == Run(START, before).offered) <==> !HasDirectAbort(after)
  {
    NothingAfterCancel(before, after);
    DirectAbortsNone(after);
  }

  /** The other side does occur: a direct call after `cancel` offers an abort. */
  lemma CancelledIsNotSilent()
    ensures var s := Run(START, [Cancel]); var t := Run(s, [DirectAbort("o", 0, Error, None)]);
            s.cancelled && s.offered == [] && t.offered == [Aborted("o", 0, Error, None)]
  {
    assert [Cancel][..0] == [];
    var after := [DirectAbort("o", 0, Error, None)];
    assert after[..0] == [];
    assert Run(START, [Cancel]) == Apply(START, Cancel);
  }

  // ----- Which event an operation offers -----

  function Finished(active: Option<Phase>, outcome: Outcome, error: Option<ErrorType>): seq<Event> {
    if active.None? then [] else [AcquireFinished(active.value.origin, active.value.hop, outcome, error)]
  }

  function AbortedUse(use: Option<Use>, outcome: Outcome, error: Option<ErrorType>): seq<Event> {
    if use.None? then [] else [Aborted(use.value.origin, use.value.hop, outcome, error)]
  }

  /** The events of an operation: outcome and error are those of the operation, origin and hop
      those of the phase or use that it ends. */
  function EventsOf(s: State, op: Op): seq<Event> {
    match op
    case StoreHop(_) => []
    case BeginPhase(origin, hop) => if s.cancelled || s.active.Some? then [] else [AcquireStarted(origin, hop)]
    case FinishPhase(outcome, error) => Finished(s.active, outcome, error)
    case FinishActivePhaseError(error) => if s.cancelled then [] else Finished(s.active, Error, Some(error))
    case BeginUse(origin, reused) =>
      if reused && !s.cancelled && s.connectionUse.None? then [Reused(origin, s.hop)] else []
    case FinishUse(token, terminal) =>
      if Owns(s, token) && terminal.Some? then AbortedUse(s.connectionUse, terminal.value.0, terminal.value.1) else []
    case AbortActiveUse(outcome, error) => AbortedUse(s.connectionUse, outcome, error)
    case Cancel =>
      if s.cancelled then []
      else Finished(s.active, Cancelled, Some(CancelledError))
           + AbortedUse(s.connectionUse, Cancelled, Some(CancelledError))
    case DirectAbort(origin, hop, outcome, error) => [Aborted(origin, hop, outcome, error)]
  }

  lemma OffersEventsOf(s: State, op: Op)
    ensures Apply(s, op).offered == s.offered + EventsOf(s, op)
  {
  }

  /** What becomes of the connection use: it begins on a free, uncancelled request; its token, an
      abort or the first cancel ends it; nothing else touches it. */
  lemma UseAfter(s: State, op: Op)
    ensures var use := Apply(s, op).connectionUse;
            match op
            case BeginUse(origin, _) =>
              use == if s.cancelled || s.connectionUse.Some? then s.connectionUse
                     else Some(Use(s.nextToken, origin, s.hop))
            case FinishUse(token, _) => use == if Owns(s, token) then None else s.connectionUse
            case AbortActiveUse(_, _) => use == None
            case Cancel => use == if s.cancelled then s.connectionUse else None
            case _ => use == s.connectionUse
  {
  }

  predicate HasCancel(ops: seq<Op>) { exists i :: 0 <= i < |ops| && ops[i].Cancel? }

  function LastHop(ops: seq<Op>): nat {
    if ops == [] then 0
    else if ops[|ops| - 1].StoreHop? then ops[|ops| - 1].hop else LastHop(ops[..|ops| - 1])
  }

  /** The phase that the history leaves open. */
  function OpenPhase(events: seq<Event>): Option<Phase> {
    var phases := PhaseEvents(events);
    if phases == [] || !phases[|phases| - 1].AcquireStarted? then None
    else Some(Phase(phases[|phases| - 1].origin, phases[|phases| - 1].hop))
  }

  lemma {:induction false} StateIsHistory(ops: seq<Op>)
    ensures var s := Run(START, ops);
            && (s.cancelled <==> HasCancel(ops))
            && s.hop == LastHop(ops)
            && s.active == OpenPhase(s.offered)
  {
    RunKeeps(ops);
    ActiveIsOpen(Run(START, ops));
    if ops == [] {
    } else {
      var rest, op := ops[..|ops| - 1], ops[|ops| - 1];
      StateIsHistory(rest);
      FlagsStep(Run(START, rest), op);
      assert ops == rest + [op];
      HasCancelSnoc(rest, op);
    }
  }

  lemma HasCancelSnoc(ops: seq<Op>, op: Op)
    ensures HasCancel(ops + [op]) <==> HasCancel(ops) || op.Cancel?
  {
    var all := ops + [op];
    assert all[|ops|] == op && forall i :: 0 <= i < |ops| ==> all[i] == ops[i];
  }

  lemma ActiveIsOpen(s: State)
    requires PhaseOk(s)
    ensures s.active == OpenPhase(s.offered)
  {
  }

  lemma FlagsStep(s: State, op: Op)
    ensures Apply(s, op).cancelled <==> s.cancelled || op.Cancel?
    ensures Apply(s, op).hop == if op.StoreHop? then op.hop else s.hop
  {
  }

  /** In every run, what an operation offers next follows from the history: a phase begins iff
      none is open and nothing was cancelled; an end carries the outcome and error of the
      operation that ends the phase. */
  lemma NextEvents(ops: seq<Op>, op: Op)
    ensures var before := Run(START, ops).offered; var after := Run(START, ops + [op]).offered;
            && (op.BeginPhase? ==>
                  after == before + if HasCancel(ops) || OpenPhase(before).Some? then []
                                    else [AcquireStarted(op.origin, op.hop)])
            && (op.FinishPhase? ==> after == before + Finished(OpenPhase(before), op.outcome, op.error))
            && (op.FinishActivePhaseError? && !HasCancel(ops) ==>
                  after == before + Finished(OpenPhase(before), Error, Some(op.failure)))
            && (op.Cancel? && !HasCancel(ops) ==>
                  exists use ::
                    after == before + Finished(OpenPhase(before), Cancelled, Some(CancelledError))
                             + AbortedUse(use, Cancelled, Some(CancelledError)))
  {
    var s := Run(START, ops);
    assert (ops + [op])[..|ops|] == ops;
    StateIsHistory(ops);
    OffersEventsOf(s, op);
    if op.Cancel? && !HasCancel(ops) {
      var a := Finished(s.active, Cancelled, Some(CancelledError));
      var b := AbortedUse(s.connectionUse, Cancelled, Some(CancelledError));
      assert s.offered + (a + b) == s.offered + a + b;
    }
  }

  lemma OldUseStep(s: State, op: Op, token: nat)
    requires token < s.nextToken
    ensures token < Apply(s, op).nextToken
    ensures Owns(Apply(s, op), token) ==> Apply(s, op).connectionUse == s.connectionUse
  {
  }

  /** In every run, a use that begins keeps its origin and the hop stored then, until it ends: an
      abort of it reports these. */
  lemma {:induction false} UseKeepsOrigin(before: seq<Op>, origin: string, reused: bool, between: seq<Op>)
    requires !HasCancel(before) && Run(START, before).connectionUse.None?
    ensures var s := Run(START, before); var t := Run(Apply(s, BeginUse(origin, reused)), between);
            && t.nextToken > s.nextToken
            && (Owns(t, s.nextToken) ==> t.connectionUse == Some(Use(s.nextToken, origin, LastHop(before))))
  {
    StateIsHistory(before);
    if between == [] {
    } else {
      UseKeepsOrigin(before, origin, reused, between[..|between| - 1]);
      var t := Run(Apply(Run(START, before), BeginUse(origin, reused)), between[..|between| - 1]);
      OldUseStep(t, between[|between| - 1], Run(START, before).nextToken);
    }
  }
}
