/** The graceful close of the synchronous client (foghttp/client.py and
    foghttp/_client/core.py).

    Any number of threads send and close in one process. Everything under the lifecycle
    condition's lock is one step; a wait releases the lock, so a waiting thread resumes in a
    later step in which its condition holds. */
module SyncClose {
  import opened Basics
  import opened Runs

  /** The lifecycle fields. Raw clients are numbered in the order of their creation;
      `closedRaw` is the history of `close_raw_client` calls. */
  datatype Core = Core(
    closed: bool,
    closeComplete: bool,
    tokens: set<nat>,
    client: Option<nat>,
    created: nat,
    closedRaw: seq<nat>)

  function AfterBegin(c: Core, token: nat): Core { if c.closed then c else c.(tokens := c.tokens + {token}) }

  function AfterFinish(c: Core, token: nat): Core { c.(tokens := c.tokens - {token}) }

  /** `_raw_client_locked`: created on first use, whether or not a close is waiting. */
  function AfterUse(c: Core): Core {
    if c.client.Some? then c else c.(client := Some(c.created), created := c.created + 1)
  }

  function AfterTake(c: Core): Core {
    c.(client := None, closeComplete := c.closeComplete || c.client.None?)
  }

  class Client {
    var closed: bool
    var closeComplete: bool
    var activeSyncSendTokens: set<nat>
    var client: Option<nat>
    var created: nat
    var closedRaw: seq<nat>

    ghost function View(): Core
      reads this
    {
      Core(closed, closeComplete, activeSyncSendTokens, client, created, closedRaw)
    }

    constructor ()
      ensures View() == Core(false, false, {}, None, 0, [])
    {
      closed, closeComplete, activeSyncSendTokens := false, false, {};
      client, created, closedRaw := None, 0, [];
    }

    /** False is the client-closed error. */
    method BeginSyncSend(token: nat) returns (admitted: bool)
      modifies this
      ensures admitted == !old(closed) && View() == AfterBegin(old(View()), token)
    {
      if closed {
        return false;
      }
      activeSyncSendTokens := activeSyncSendTokens + {token};
      return true;
    }

    method FinishSyncSend(token: nat)
      modifies this
      ensures View() == AfterFinish(old(View()), token)
    {
      activeSyncSendTokens := activeSyncSendTokens - {token};
    }

    method SyncSendRawClient() returns (raw: nat)
      modifies this
      ensures View() == AfterUse(old(View())) && client == Some(raw)
    {
      if client.None? {
        client := Some(created);
        created := created + 1;
      }
      return client.value;
    }

    /** The section of a close once no send is active. */
    method TakeClient() returns (raw: Option<nat>)
      modifies this
      ensures raw == old(client) && View() == AfterTake(old(View()))
    {
      raw := client;
      client := None;
      if raw.None? {
        closeComplete := true;
      }
    }
  }

  // ----- Threads -----

  /** A send that is refused still runs its cleanup. */
  datatype Send = NotSent | Active | Refused | Sent

  datatype Closer =
    | NotCalled
    | AwaitingSends            // set the closed flag; waits for the active sends
    | AwaitingCompletion       // found the client closed; waits for the other call
    | ClosingRaw(raw: nat)     // took the raw client over, outside the lock
    | RawClosed                // close_raw_client has ended, normally or not
    | Returned

  /** `winner` remembers the close call that set the closed flag. */
  datatype State = State(core: Core, sends: map<nat, Send>, closers: map<nat, Closer>, winner: Option<nat>)

  datatype Step =
    | BeginSend(t: nat)
    | UseRawClient(t: nat)
    | FinishSend(t: nat)
    | BeginClose(k: nat)
    | TakeOver(k: nat)
    | CloseRaw(k: nat)
    | Complete(k: nat)
    | Wake(k: nat)

  predicate SendIs(s: State, t: nat, send: Send) { t in s.sends && s.sends[t] == send }

  predicate CloserIs(s: State, k: nat, closer: Closer) { k in s.closers && s.closers[k] == closer }

  predicate Enabled(s: State, step: Step) {
    match step
    case BeginSend(t) => SendIs(s, t, NotSent)
    case UseRawClient(t) => SendIs(s, t, Active)
    case FinishSend(t) => SendIs(s, t, Active) || SendIs(s, t, Refused)
    case BeginClose(k) => CloserIs(s, k, NotCalled)
    case TakeOver(k) => CloserIs(s, k, AwaitingSends) && s.core.tokens == {}
    case CloseRaw(k) => k in s.closers && s.closers[k].ClosingRaw?
    case Complete(k) => CloserIs(s, k, RawClosed)
    case Wake(k) => CloserIs(s, k, AwaitingCompletion) && s.core.closeComplete
  }

  function WithSend(s: State, t: nat, send: Send): State { s.(sends := s.sends[t := send]) }

  function WithCloser(s: State, k: nat, closer: Closer): State { s.(closers := s.closers[k := closer]) }

  function Apply(s: State, step: Step): State
    requires Enabled(s, step)
  {
    var c := s.core;
    match step
    case BeginSend(t) => WithSend(s.(core := AfterBegin(c, t)), t, if c.closed then Refused else Active)
    case UseRawClient(t) => s.(core := AfterUse(c))
    case FinishSend(t) => WithSend(s.(core := AfterFinish(c, t)), t, Sent)
    case BeginClose(k) =>
      if c.closed then WithCloser(s, k, AwaitingCompletion)
      else WithCloser(s.(core := c.(closed := true), winner := Some(k)), k, AwaitingSends)
    case TakeOver(k) =>
      WithCloser(s.(core := AfterTake(c)), k, if c.client.None? then Returned else ClosingRaw(c.client.value))
    case CloseRaw(k) => WithCloser(s.(core := c.(closedRaw := c.closedRaw + [s.closers[k].raw])), k, RawClosed)
    case Complete(k) => WithCloser(s.(core := c.(closeComplete := true)), k, Returned)
    case Wake(k) => WithCloser(s, k, Returned)
  }

  ghost predicate Init(s: State) {
    && s.core == Core(false, false, {}, None, 0, [])
    && (forall t :: t in s.sends ==> s.sends[t].NotSent?)
    && (forall k :: k in s.closers ==> s.closers[k].NotCalled?)
    && s.winner == None
  }

  ghost predicate Successor(s: State, t: State) {
    exists step :: Enabled(s, step) && t == Apply(s, step)
  }

  // ----- Invariant -----

  /** The raw clients created so far: none or one. */
  function AllCreated(c: Core): seq<nat> { if c.created == 0 then [] else [0] }

  ghost predicate TokensOk(s: State) { forall t :: t in s.core.tokens <==> SendIs(s, t, Active) }

  /** While no raw client has been taken over: at most one exists, and it is in place. */
  predicate InPlace(c: Core) {
    && !c.closeComplete && c.closedRaw == [] && c.created <= 1
    && c.client == if c.created == 0 then None else Some(0)
  }

  /** What the winning close call has achieved at each of its stages. */
  predicate StageOk(c: Core, closer: Closer) {
    match closer
    case AwaitingSends => InPlace(c)
    case ClosingRaw(raw) =>
      raw == 0 && c.created == 1 && c.client.None? && c.tokens == {} && c.closedRaw == [] && !c.closeComplete
    case RawClosed => c.created == 1 && c.client.None? && c.tokens == {} && c.closedRaw == [0] && !c.closeComplete
    case Returned =>
      c.created <= 1 && c.client.None? && c.tokens == {} && c.closedRaw == AllCreated(c) && c.closeComplete
    case _ => false
  }

  predicate LoserOk(c: Core, closer: Closer) {
    closer.NotCalled? || closer.AwaitingCompletion? || (closer.Returned? && c.closeComplete)
  }

  ghost predicate Inv(s: State) {
    && TokensOk(s)
    && (s.core.closed <==> s.winner.Some?)
    && (s.winner.None? ==> InPlace(s.core))
    && (s.winner.None? ==> forall k :: k in s.closers ==> s.closers[k].NotCalled?)
    && (s.winner.Some? ==> s.winner.value in s.closers && StageOk(s.core, s.closers[s.winner.value]))
    && (s.winner.Some? ==> forall k :: k in s.closers && k != s.winner.value ==> LoserOk(s.core, s.closers[k]))
  }

  lemma SendStepKeeps(s: State, step: Step)
    requires Inv(s) && Enabled(s, step) && (step.BeginSend? || step.UseRawClient? || step.FinishSend?)
    ensures Inv(Apply(s, step))
  {
    if step.UseRawClient? {
      assert step.t in s.core.tokens;
    }
  }

  lemma CloseStepKeeps(s: State, step: Step)
    requires Inv(s) && Enabled(s, step) && !(step.BeginSend? || step.UseRawClient? || step.FinishSend?)
    ensures Inv(Apply(s, step))
  {
  }

  lemma InvPreserved()
    ensures Preserves(Successor, Inv)
  {
    forall s, t | Inv(s) && Successor(s, t) ensures Inv(t) {
      var step :| Enabled(s, step) && t == Apply(s, step);
      if step.BeginSend? || step.UseRawClient? || step.FinishSend? {
        SendStepKeeps(s, step);
      } else {
        CloseStepKeeps(s, step);
      }
    }
  }

  lemma RunKeepsInv(run: seq<State>, i: nat)
    requires IsRun(Init, Successor, run) && i < |run|
    ensures Inv(run[i])
  {
    InvPreserved();
    Later(Successor, Inv, run, 0, i);
  }

  // ----- Main results -----

  /** In every run at most one raw client is created, however late, and it is closed at most
      once, when no send is active and it is nobody's client any more. */
  lemma OneRawClientClosedOnce(run: seq<State>, i: nat)
    requires IsRun(Init, Successor, run) && i < |run|
    ensures run[i].core.created <= 1
    ensures run[i].core.closedRaw == [] || (run[i].core.closedRaw == [0] && run[i].core.created == 1)
    ensures forall k :: k in run[i].closers && run[i].closers[k].ClosingRaw? ==>
              run[i].core.tokens == {} && run[i].core.closedRaw == []
    ensures run[i].core.closedRaw != [] ==> run[i].core.tokens == {} && run[i].core.client.None?
  {
    RunKeepsInv(run, i);
  }

  /** A close call returns only when the close is complete: no send is active and every raw
      client ever created has been closed exactly once. */
  lemma CloseReturnsAfterCompletion(run: seq<State>, i: nat, k: nat)
    requires IsRun(Init, Successor, run) && i < |run| && CloserIs(run[i], k, Returned)
    ensures var c := run[i].core;
            c.closed && c.closeComplete && c.tokens == {} && c.client.None? && c.closedRaw == AllCreated(c)
  {
    RunKeepsInv(run, i);
  }

  ghost predicate ClosedWithin(s: State, tokens: set<nat>) { Inv(s) && s.core.closed && s.core.tokens <= tokens }

  /** Once a close has begun no send is admitted any more: the active sends only shrink. */
  lemma NoSendAfterCloseBegins(run: seq<State>, i: nat, j: nat)
    requires IsRun(Init, Successor, run) && i <= j < |run| && run[i].core.closed
    ensures run[j].core.closed && run[j].core.tokens <= run[i].core.tokens
  {
    var tokens := run[i].core.tokens;
    RunKeepsInv(run, i);
    InvPreserved();
    forall s, t | ClosedWithin(s, tokens) && Successor(s, t) ensures ClosedWithin(t, tokens) {
    }
    Later(Successor, (s: State) => ClosedWithin(s, tokens), run, i, j);
  }

  /** After completion nothing changes any more: no raw client appears or is closed again. */
  ghost predicate CompleteWith(s: State, core: Core) { Inv(s) && s.core.closeComplete && s.core == core }

  lemma CompletionIsFinal(run: seq<State>, i: nat, j: nat)
    requires IsRun(Init, Successor, run) && i <= j < |run| && run[i].core.closeComplete
    ensures run[j].core == run[i].core
  {
    var core := run[i].core;
    RunKeepsInv(run, i);
    InvPreserved();
    forall s, t | CompleteWith(s, core) && Successor(s, t) ensures CompleteWith(t, core) {
      CompleteStep(s, t);
    }
    Later(Successor, (s: State) => CompleteWith(s, core), run, i, j);
  }

  lemma CompleteStep(s: State, t: State)
    requires Inv(s) && s.core.closeComplete && Successor(s, t)
    ensures t.core == s.core
  {
    var step :| Enabled(s, step) && t == Apply(s, step);
    assert s.winner.Some? && s.closers[s.winner.value].Returned?;
  }

  // ----- What a send and a close can do -----

  /** A send begun before any close is active, and its token is held; one begun after is
      refused. */
  lemma BegunSendIsActiveIff(run: seq<State>, i: nat, t: nat)
    requires IsRun(Init, Successor, run) && i + 1 < |run|
    requires SendIs(run[i], t, NotSent) && !SendIs(run[i + 1], t, NotSent)
    ensures SendIs(run[i + 1], t, Active) <==> !run[i].core.closed
    ensures SendIs(run[i + 1], t, Refused) <==> run[i].core.closed
    ensures t in run[i + 1].core.tokens <==> !run[i].core.closed
  {
    RunKeepsInv(run, i);
    RunKeepsInv(run, i + 1);
    assert Follows(Successor, run, i);
  }

  /** An active send stays active until it finishes, and until then no close takes the raw client
      away or closes it. */
  lemma ActiveSendKeepsClient(run: seq<State>, i: nat, t: nat)
    requires IsRun(Init, Successor, run) && i + 1 < |run| && SendIs(run[i], t, Active)
    ensures SendIs(run[i + 1], t, Active) || SendIs(run[i + 1], t, Sent)
    ensures run[i].core.closedRaw == [] && run[i + 1].core.closedRaw == []
    ensures run[i].core.client.Some? ==> run[i + 1].core.client == run[i].core.client
  {
    RunKeepsInv(run, i);
    assert t in run[i].core.tokens;
    assert Follows(Successor, run, i);
  }

  lemma TakeStep(s: State, step: Step, t: State)
    requires Enabled(s, step) && Leads(Successor, Apply(s, step), t)
    ensures Leads(Successor, s, t)
  {
    assert Successor(s, Apply(s, step));
    LeadsStep(Successor, s, Apply(s, step), t);
  }

  /** An active send gets the one raw client, creating it if it is the first. */
  lemma SendGetsClient(run: seq<State>, i: nat, t: nat)
    requires IsRun(Init, Successor, run) && i < |run| && SendIs(run[i], t, Active)
    ensures Enabled(run[i], UseRawClient(t)) && Apply(run[i], UseRawClient(t)).core.client == Some(0)
    ensures Apply(run[i], UseRawClient(t)).core.created == 1
  {
    RunKeepsInv(run, i);
    assert t in run[i].core.tokens;
  }

  lemma StepKeepsInv(s: State, step: Step)
    requires Inv(s) && Enabled(s, step)
    ensures Inv(Apply(s, step))
  {
    if step.BeginSend? || step.UseRawClient? || step.FinishSend? {
      SendStepKeeps(s, step);
    } else {
      CloseStepKeeps(s, step);
    }
  }

  /** The active sends can all finish. */
  lemma {:induction false} SendsFinish(s: State) returns (t: State)
    requires Inv(s) && s.core.closed
    ensures Leads(Successor, s, t) && Inv(t) && t.core.tokens == {} && t.core.closed
    ensures t.closers == s.closers && t.winner == s.winner
    decreases s.core.tokens
  {
    if s.core.tokens == {} {
      LeadsSelf(Successor, s);
      t := s;
    } else {
      var token :| token in s.core.tokens;
      var u := Apply(s, FinishSend(token));
      StepKeepsInv(s, FinishSend(token));
      assert token !in u.core.tokens && u.core.tokens <= s.core.tokens;
      t := SendsFinish(u);
      TakeStep(s, FinishSend(token), t);
    }
  }

  /** Then the winning close can complete, whatever its stage. */
  lemma WinnerReturns(s: State) returns (t: State)
    requires Inv(s) && s.core.closed && s.core.tokens == {}
    ensures Leads(Successor, s, t) && Inv(t) && t.core.closeComplete && t.winner == s.winner
    ensures forall k :: k in s.closers && k != s.winner.value ==> k in t.closers && t.closers[k] == s.closers[k]
    ensures s.winner.value in t.closers && t.closers[s.winner.value].Returned?
  {
    var k := s.winner.value;
    t := s;
    LeadsSelf(Successor, s);
    if t.closers[k].AwaitingSends? {
      t := Apply(s, TakeOver(k));
      StepKeepsInv(s, TakeOver(k));
      LeadsSelf(Successor, t);
      TakeStep(s, TakeOver(k), t);
    }
    if t.closers[k].ClosingRaw? {
      var u := Apply(t, CloseRaw(k));
      StepKeepsInv(t, CloseRaw(k));
      LeadsSelf(Successor, u);
      TakeStep(t, CloseRaw(k), u);
      LeadsTrans(Successor, s, t, u);
      t := u;
    }
    if t.closers[k].RawClosed? {
      var u := Apply(t, Complete(k));
      StepKeepsInv(t, Complete(k));
      LeadsSelf(Successor, u);
      TakeStep(t, Complete(k), u);
      LeadsTrans(Successor, s, t, u);
      t := u;
    }
  }

  /** From every reachable state in which a close has begun, every close call that has been made
      can return. */
  lemma EveryCloseCanReturn(run: seq<State>, i: nat, k: nat) returns (t: State)
    requires IsRun(Init, Successor, run) && i < |run| && run[i].core.closed
    requires k in run[i].closers && !run[i].closers[k].NotCalled?
    ensures Leads(Successor, run[i], t) && CloserIs(t, k, Returned)
  {
    RunKeepsInv(run, i);
    var s := run[i];
    var u := SendsFinish(s);
    t := WinnerReturns(u);
    LeadsTrans(Successor, s, u, t);
    if t.closers[k].AwaitingCompletion? {
      var v := Apply(t, Wake(k));
      LeadsSelf(Successor, v);
      TakeStep(t, Wake(k), v);
      LeadsTrans(Successor, s, t, v);
      t := v;
    }
  }
}
