/** The bounded multi-producer telemetry journal with selective draining
    (src/core/telemetry.rs).

    Producers reserve a slot on an atomic counter, send into a bounded channel, or count a
    drop. A drain takes the journal lock, moves events one by one while producers keep
    sending, and settles the counters after unlocking. Memory is sequentially consistent;
    one atomic operation or one channel operation is one step, so a compare-and-swap loop
    is its deciding load or its successful swap. */
module TelemetryJournal {
  import opened Basics
  import opened MapSums
  import opened Runs

  /** An event is client-scoped (no request) or belongs to one request; `id` tells two
      recordings apart. */
  datatype Event = Event(id: nat, request: Option<nat>)

  /** A drain for one request claims its own and the client-scoped events; a full drain
      claims everything. */
  predicate Claims(request: Option<nat>, e: Event) {
    request.None? || e.request.None? || e.request == request
  }

  function Claimed(request: Option<nat>, events: seq<Event>): seq<Event> {
    if events == [] then []
    else
      var e := events[|events| - 1];
      Claimed(request, events[..|events| - 1]) + if Claims(request, e) then [e] else []
  }

  function Unclaimed(request: Option<nat>, events: seq<Event>): seq<Event> {
    if events == [] then []
    else
      var e := events[|events| - 1];
      Unclaimed(request, events[..|events| - 1]) + if Claims(request, e) then [] else [e]
  }

  /** The events of one scope, in order. */
  function Of(scope: Option<nat>, events: seq<Event>): seq<Event> {
    if events == [] then []
    else
      var e := events[|events| - 1];
      Of(scope, events[..|events| - 1]) + if e.request == scope then [e] else []
  }

  // ----- What a drain for one request must return -----

  /** What a request may see: its own events and those of no request. */
  predicate Visible(e: Event, request: nat) { e.request == None || e.request == Some(request) }

  lemma {:induction false} ClaimMembers(request: nat, events: seq<Event>)
    ensures forall e :: e in Claimed(Some(request), events) <==> e in events && Visible(e, request)
    ensures forall e :: e in Unclaimed(Some(request), events) <==> e in events && !Visible(e, request)
  {
    if events == [] {
    } else {
      var rest, last := events[..|events| - 1], events[|events| - 1];
      ClaimMembers(request, rest);
      assert events == rest + [last];
      assert Claims(Some(request), last) <==> Visible(last, request);
    }
  }

  /** The visible events are returned, the others retained, and none lost or doubled. */
  lemma DrainPartitions(request: nat, a: seq<Event>, b: seq<Event>)
    ensures var matching := Claimed(Some(request), a) + Claimed(Some(request), b);
            var kept := Unclaimed(Some(request), a) + Unclaimed(Some(request), b);
            && (forall e :: e in matching <==> e in a + b && Visible(e, request))
            && (forall e :: e in kept <==> e in a + b && !Visible(e, request))
            && multiset(matching) + multiset(kept) == multiset(a + b)
  {
    ClaimMembers(request, a);
    ClaimMembers(request, b);
    ClaimSplits(Some(request), a);
    ClaimSplits(Some(request), b);
  }

  // ----- The journal behind its lock, drained without interference -----

  class LockedJournal {
    var receiver: seq<Event>
    var retained: seq<Event>

    constructor ()
      ensures receiver == [] && retained == []
    {
      receiver, retained := [], [];
    }

    method DrainRequest(request: nat) returns (matching: seq<Event>)
      modifies this
      ensures matching == Claimed(Some(request), old(retained)) + Claimed(Some(request), old(receiver))
      ensures retained == Unclaimed(Some(request), old(retained)) + Unclaimed(Some(request), old(receiver))
      ensures receiver == []
      ensures forall e :: e in matching <==> e in old(retained + receiver) && Visible(e, request)
      ensures forall e :: e in retained <==> e in old(retained + receiver) && !Visible(e, request)
      ensures multiset(matching) + multiset(retained) == multiset(old(retained + receiver))
    {
      matching := DrainLoops(request);
      DrainPartitions(request, old(retained), old(receiver));
    }

    method DrainLoops(request: nat) returns (matching: seq<Event>)
      modifies this
      ensures matching == Claimed(Some(request), old(retained)) + Claimed(Some(request), old(receiver))
      ensures retained == Unclaimed(Some(request), old(retained)) + Unclaimed(Some(request), old(receiver))
      ensures receiver == []
    {
      matching := [];
      var taken := retained;
      retained := [];
      for i := 0 to |taken|
        invariant matching == Claimed(Some(request), taken[..i])
        invariant retained == Unclaimed(Some(request), taken[..i])
        invariant receiver == old(receiver)
      {
        assert taken[..i + 1][..i] == taken[..i];
        if Claims(Some(request), taken[i]) {
          matching := matching + [taken[i]];
        } else {
          retained := retained + [taken[i]];
        }
      }
      assert taken[..|taken|] == taken;
      ghost var claimed, kept := matching, retained;
      ghost var all := receiver;
      while receiver != []
        invariant |receiver| <= |all| && receiver == all[|all| - |receiver|..]
        invariant matching == claimed + Claimed(Some(request), all[..|all| - |receiver|])
        invariant retained == kept + Unclaimed(Some(request), all[..|all| - |receiver|])
        decreases |receiver|
      {
        ghost var n := |all| - |receiver|;
        assert all[..n + 1][..n] == all[..n];
        var event := receiver[0];
        receiver := receiver[1..];
        if Claims(Some(request), event) {
          matching := matching + [event];
        } else {
          retained := retained + [event];
        }
      }
      assert all[..|all|] == all;
    }

    method DrainAll() returns (events: seq<Event>)
      modifies this
      ensures events == old(retained) + old(receiver)
      ensures receiver == [] && retained == []
    {
      events := retained + receiver;
      receiver, retained := [], [];
    }
  }

  // ----- The journal with producers sending during a drain -----

  /** The drain that holds the lock, with what it has claimed so far. */
  datatype Holder = Holder(request: Option<nat>, matching: seq<Event>)

  datatype Batch = Batch(request: Option<nat>, events: seq<Event>)

  /** `sent` and `batches` are history: the channel's input and every returned batch. */
  datatype Journal = Journal(
    channel: seq<Event>,
    retained: seq<Event>,
    holder: Option<Holder>,
    sent: seq<Event>,
    batches: seq<Batch>)

  datatype Move = SendIn(e: Event) | Lock(request: Option<nat>) | Pop | Unlock

  predicate CanMove(j: Journal, move: Move) {
    match move
    case SendIn(_) => true
    case Lock(_) => j.holder.None?
    case Pop => j.holder.Some? && j.channel != []
    case Unlock => j.holder.Some? && j.channel == []
  }

  function MoveTo(j: Journal, move: Move): Journal
    requires CanMove(j, move)
  {
    match move
    case SendIn(e) => j.(channel := j.channel + [e], sent := j.sent + [e])
    case Lock(request) =>
      j.(holder := Some(Holder(request, Claimed(request, j.retained))),
         retained := Unclaimed(request, j.retained))
    case Pop =>
      var e := j.channel[0];
      var h := j.holder.value;
      if Claims(h.request, e)
      then j.(channel := j.channel[1..], holder := Some(h.(matching := h.matching + [e])))
      else j.(channel := j.channel[1..], retained := j.retained + [e])
    case Unlock =>
      j.(holder := None, batches := j.batches + [Batch(j.holder.value.request, j.holder.value.matching)])
  }

  function Delivered(batches: seq<Batch>): seq<Event> {
    if batches == [] then [] else Delivered(batches[..|batches| - 1]) + batches[|batches| - 1].events
  }

  function Matching(j: Journal): seq<Event> { if j.holder.Some? then j.holder.value.matching else [] }

  /** Everything ever sent, in the order in which it leaves the journal. */
  function Pipeline(j: Journal): seq<Event> {
    Delivered(j.batches) + Matching(j) + j.retained + j.channel
  }

  predicate AllClaimed(request: Option<nat>, events: seq<Event>) {
    forall i :: 0 <= i < |events| ==> Claims(request, events[i])
  }

  predicate NoneClaimed(request: Option<nat>, events: seq<Event>) {
    forall i :: 0 <= i < |events| ==> !Claims(request, events[i])
  }

  /** Record order is kept per request and among client-scoped events; nothing is lost or
      doubled; a batch holds only events its drain may see; no client-scoped event and
      nothing claimed by the current drain is retained. */
  ghost predicate JournalOk(j: Journal) {
    && (forall scope :: Of(scope, Pipeline(j)) == Of(scope, j.sent))
    && multiset(Pipeline(j)) == multiset(j.sent)
    && (forall i :: 0 <= i < |j.batches| ==> AllClaimed(j.batches[i].request, j.batches[i].events))
    && (j.holder.Some? ==> AllClaimed(j.holder.value.request, j.holder.value.matching))
    && (j.holder.Some? ==> NoneClaimed(j.holder.value.request, j.retained))
    && (forall i :: 0 <= i < |j.retained| ==> j.retained[i].request.Some?)
  }

  lemma {:induction false} OfConcat(scope: Option<nat>, a: seq<Event>, b: seq<Event>)
    ensures Of(scope, a + b) == Of(scope, a) + Of(scope, b)
  {
    if b == [] {
      assert a + b == a;
    } else {
      var c := b[..|b| - 1];
      assert (a + b)[..|a + b| - 1] == a + c;
      OfConcat(scope, a, c);
    }
  }

  lemma OfFour(scope: Option<nat>, a: seq<Event>, b: seq<Event>, c: seq<Event>, d: seq<Event>)
    ensures Of(scope, a + b + c + d) == Of(scope, a) + Of(scope, b) + Of(scope, c) + Of(scope, d)
  {
    OfConcat(scope, a, b);
    OfConcat(scope, a + b, c);
    OfConcat(scope, a + b + c, d);
  }

  lemma {:induction false} OfUnclaimed(request: Option<nat>, scope: Option<nat>, events: seq<Event>)
    requires NoneClaimed(request, events) && Claims(request, Event(0, scope))
    ensures Of(scope, events) == []
  {
    if events == [] {
    } else {
      OfUnclaimed(request, scope, events[..|events| - 1]);
    }
  }

  lemma OfSnoc(scope: Option<nat>, events: seq<Event>, e: Event)
    ensures Of(scope, events + [e]) == Of(scope, events) + if e.request == scope then [e] else []
  {
    assert (events + [e])[..|events|] == events;
  }

  lemma OfCons(scope: Option<nat>, e: Event, events: seq<Event>)
    ensures Of(scope, [e] + events) == (if e.request == scope then [e] else []) + Of(scope, events)
  {
    OfConcat(scope, [e], events);
    OfSnoc(scope, [], e);
    assert [] + [e] == [e];
  }

  lemma {:induction false} ClaimSplits(request: Option<nat>, events: seq<Event>)
    ensures multiset(Claimed(request, events)) + multiset(Unclaimed(request, events)) == multiset(events)
  {
    if events == [] {
    } else {
      var rest, e := events[..|events| - 1], events[|events| - 1];
      ClaimSplits(request, rest);
      assert events == rest + [e];
      assert multiset(events) == multiset(rest) + multiset{e};
      if Claims(request, e) {
        assert multiset(Claimed(request, rest) + [e]) == multiset(Claimed(request, rest)) + multiset{e};
      } else {
        assert multiset(Unclaimed(request, rest) + [e]) == multiset(Unclaimed(request, rest)) + multiset{e};
      }
    }
  }

  lemma {:induction false} ClaimSorts(request: Option<nat>, events: seq<Event>)
    ensures AllClaimed(request, Claimed(request, events)) && NoneClaimed(request, Unclaimed(request, events))
    ensures forall i :: 0 <= i < |Unclaimed(request, events)| ==> Unclaimed(request, events)[i].request.Some?
  {
    if events == [] {
    } else {
      ClaimSorts(request, events[..|events| - 1]);
    }
  }

  /** Splitting by claim keeps the order inside every scope. */
  lemma {:induction false} ClaimedScope(request: Option<nat>, scope: Option<nat>, events: seq<Event>)
    ensures Of(scope, Claimed(request, events)) ==
            if Claims(request, Event(0, scope)) then Of(scope, events) else []
  {
    if events == [] {
    } else {
      var n := |events| - 1;
      ClaimedScope(request, scope, events[..n]);
      OfSnoc(scope, Claimed(request, events[..n]), events[n]);
      assert Claimed(request, events[..n]) + [] == Claimed(request, events[..n]);
    }
  }

  lemma {:induction false} UnclaimedScope(request: Option<nat>, scope: Option<nat>, events: seq<Event>)
    ensures Of(scope, Unclaimed(request, events)) ==
            if Claims(request, Event(0, scope)) then [] else Of(scope, events)
  {
    if events == [] {
    } else {
      var n := |events| - 1;
      UnclaimedScope(request, scope, events[..n]);
      OfSnoc(scope, Unclaimed(request, events[..n]), events[n]);
      assert Unclaimed(request, events[..n]) + [] == Unclaimed(request, events[..n]);
    }
  }

  lemma SendKeeps(j: Journal, e: Event)
    requires JournalOk(j)
    ensures JournalOk(MoveTo(j, SendIn(e)))
  {
    var k := MoveTo(j, SendIn(e));
    assert Pipeline(k) == Pipeline(j) + [e];
    forall scope ensures Of(scope, Pipeline(k)) == Of(scope, k.sent) {
      OfConcat(scope, Pipeline(j), [e]);
      OfConcat(scope, j.sent, [e]);
    }
  }

  lemma Shift(d: seq<Event>, c: seq<Event>, u: seq<Event>, r: seq<Event>)
    requires (c == r && u == []) || (c == [] && u == r)
    ensures d + c + u == d + [] + r
  {
    if u == [] {
      assert d + c + u == d + c && d + [] == d;
    }
  }

  lemma LockKeepsScope(j: Journal, request: Option<nat>, scope: Option<nat>)
    requires j.holder.None?
    ensures Of(scope, Pipeline(MoveTo(j, Lock(request)))) == Of(scope, Pipeline(j))
  {
    var d := Delivered(j.batches);
    var claimed, unclaimed := Claimed(request, j.retained), Unclaimed(request, j.retained);
    ClaimedScope(request, scope, j.retained);
    UnclaimedScope(request, scope, j.retained);
    OfFour(scope, d, claimed, unclaimed, j.channel);
    OfFour(scope, d, [], j.retained, j.channel);
    Shift(Of(scope, d), Of(scope, claimed), Of(scope, unclaimed), Of(scope, j.retained));
  }

  lemma LockKeeps(j: Journal, request: Option<nat>)
    requires JournalOk(j) && j.holder.None?
    ensures JournalOk(MoveTo(j, Lock(request)))
  {
    var k := MoveTo(j, Lock(request));
    forall scope ensures Of(scope, Pipeline(k)) == Of(scope, k.sent) {
      LockKeepsScope(j, request, scope);
    }
    ClaimSplits(request, j.retained);
    assert multiset(Pipeline(k)) == multiset(Pipeline(j));
    ClaimSorts(request, j.retained);
  }

  /** An event leaving the channel may overtake retained events of other scopes only. */
  lemma Commute(d: seq<Event>, m: seq<Event>, r: seq<Event>, e: seq<Event>, c: seq<Event>)
    requires e == [] || r == []
    ensures d + (m + e) + r + c == d + m + r + (e + c)
  {
    if e == [] {
      assert m + e == m && e + c == c;
    } else {
      assert d + (m + e) + r == d + m + e && d + m + r == d + m;
      assert d + m + e + c == d + m + (e + c);
    }
  }

  lemma OvertakeKeepsScope(scope: Option<nat>, d: seq<Event>, m: seq<Event>, r: seq<Event>, e: Event, c: seq<Event>)
    requires e.request == scope ==> Of(scope, r) == []
    ensures Of(scope, d + (m + [e]) + r + c) == Of(scope, d + m + r + ([e] + c))
  {
    var own := if e.request == scope then [e] else [];
    OfFour(scope, d, m, r, [e] + c);
    OfFour(scope, d, m + [e], r, c);
    OfCons(scope, e, c);
    OfSnoc(scope, m, e);
    Commute(Of(scope, d), Of(scope, m), Of(scope, r), own, Of(scope, c));
  }

  lemma PopClaimedScope(j: Journal, scope: Option<nat>)
    requires CanMove(j, Pop) && Claims(j.holder.value.request, j.channel[0])
    requires NoneClaimed(j.holder.value.request, j.retained)
    ensures Of(scope, Pipeline(MoveTo(j, Pop))) == Of(scope, Pipeline(j))
  {
    var e, h := j.channel[0], j.holder.value;
    assert j.channel == [e] + j.channel[1..];
    if e.request == scope {
      OfUnclaimed(h.request, scope, j.retained);
    }
    OvertakeKeepsScope(scope, Delivered(j.batches), h.matching, j.retained, e, j.channel[1..]);
  }

  lemma PopClaimedKeeps(j: Journal)
    requires JournalOk(j) && CanMove(j, Pop) && Claims(j.holder.value.request, j.channel[0])
    ensures JournalOk(MoveTo(j, Pop))
  {
    var k := MoveTo(j, Pop);
    assert j.channel == [j.channel[0]] + k.channel;
    forall scope ensures Of(scope, Pipeline(k)) == Of(scope, k.sent) {
      PopClaimedScope(j, scope);
    }
    assert multiset(Pipeline(k)) == multiset(Pipeline(j));
  }

  lemma PopRetainedKeeps(j: Journal)
    requires JournalOk(j) && CanMove(j, Pop) && !Claims(j.holder.value.request, j.channel[0])
    ensures JournalOk(MoveTo(j, Pop))
  {
    var k := MoveTo(j, Pop);
    assert j.channel == [j.channel[0]] + k.channel;
    assert Pipeline(k) == Pipeline(j);
  }

  lemma UnlockKeeps(j: Journal)
    requires JournalOk(j) && CanMove(j, Unlock)
    ensures JournalOk(MoveTo(j, Unlock))
  {
    var k := MoveTo(j, Unlock);
    assert k.batches[..|j.batches|] == j.batches;
    assert Pipeline(k) == Pipeline(j);
  }

  lemma MoveKeeps(j: Journal, move: Move)
    requires JournalOk(j) && CanMove(j, move)
    ensures JournalOk(MoveTo(j, move))
  {
    match move
    case SendIn(e) => SendKeeps(j, e);
    case Lock(request) => LockKeeps(j, request);
    case Pop => if Claims(j.holder.value.request, j.channel[0]) { PopClaimedKeeps(j); } else { PopRetainedKeeps(j); }
    case Unlock => UnlockKeeps(j);
  }

  /** The number of events in the journal, including those a drain is holding. */
  function Size(j: Journal): nat { |j.channel| + |j.retained| + |Matching(j)| }

  lemma {:induction false} ClaimSizes(request: Option<nat>, events: seq<Event>)
    ensures |Claimed(request, events)| + |Unclaimed(request, events)| == |events|
  {
    if events == [] {
    } else {
      ClaimSizes(request, events[..|events| - 1]);
    }
  }

  lemma MoveSize(j: Journal, move: Move)
    requires CanMove(j, move)
    ensures Size(MoveTo(j, move)) ==
            match move
            case SendIn(_) => Size(j) + 1
            case Unlock => Size(j) - |Matching(j)|
            case _ => Size(j)
  {
    if move.Lock? {
      ClaimSizes(move.request, j.retained);
    }
  }

  // ----- Slots, drops and drains -----

  /** A drain after unlocking, before its fetch_sub. */
  datatype Settling = Settling(count: nat, full: bool)

  function CountOf(d: Settling): nat { d.count }

  /** Producers are told apart only by the event they are recording: `offering` before a
      slot decision, `slotted` with a slot, `refusing` before counting the drop. `swaps`
      counts full drains that still have to take over the dropped count, `swapped` those that
      have; `offered`, `refused`, `reported` and `swapped` are history. */
  datatype State = State(
    capacity: nat,
    queued: nat,
    dropped: nat,
    journal: Journal,
    offering: multiset<Event>,
    slotted: multiset<Event>,
    refusing: multiset<Event>,
    settling: map<nat, Settling>,
    swaps: nat,
    offered: multiset<Event>,
    refused: multiset<Event>,
    reported: nat,
    swapped: nat)

  datatype Step =
    | Offer(e: Event)
    | Reserve(e: Event)
    | Refuse(e: Event)
    | NoteDropped(e: Event)
    | TrySend(e: Event)
    | BeginDrain(request: Option<nat>)
    | DrainPop
    | EndDrain(id: nat)
    | FetchSub(id: nat)
    | SwapDropped

  predicate Enabled(s: State, step: Step) {
    match step
    case Offer(e) => e !in s.offered
    case Reserve(e) => e in s.offering && s.queued < s.capacity
    case Refuse(e) => e in s.offering && s.queued >= s.capacity
    case NoteDropped(e) => e in s.refusing
    case TrySend(e) => e in s.slotted
    case BeginDrain(request) => CanMove(s.journal, Lock(request))
    case DrainPop => CanMove(s.journal, Pop)
    case EndDrain(id) => CanMove(s.journal, Unlock) && id !in s.settling
    case FetchSub(id) => id in s.settling
    case SwapDropped => s.swaps > 0
  }

  predicate ChannelFull(s: State) { |s.journal.channel| >= s.capacity }

  function Apply(s: State, step: Step): State
    requires Enabled(s, step)
  {
    match step
    case Offer(e) => s.(offering := s.offering + multiset{e}, offered := s.offered + multiset{e})
    case Reserve(e) =>
      s.(offering := s.offering - multiset{e}, slotted := s.slotted + multiset{e}, queued := s.queued + 1)
    case Refuse(e) => s.(offering := s.offering - multiset{e}, refusing := s.refusing + multiset{e})
    case NoteDropped(e) =>
      s.(refusing := s.refusing - multiset{e}, refused := s.refused + multiset{e}, dropped := s.dropped + 1)
    case TrySend(e) =>
      if ChannelFull(s)
      then s.(slotted := s.slotted - multiset{e}, refusing := s.refusing + multiset{e},
              queued := if s.queued == 0 then 0 else s.queued - 1)
      else s.(slotted := s.slotted - multiset{e}, journal := MoveTo(s.journal, SendIn(e)))
    case BeginDrain(request) => s.(journal := MoveTo(s.journal, Lock(request)))
    case DrainPop => s.(journal := MoveTo(s.journal, Pop))
    case EndDrain(id) =>
      var h := s.journal.holder.value;
      s.(journal := MoveTo(s.journal, Unlock),
         settling := s.settling[id := Settling(|h.matching|, h.request.None?)])
    case FetchSub(id) =>
      var d := s.settling[id];
      s.(queued := if s.queued < d.count then 0 else s.queued - d.count,
         settling := s.settling - {id},
         swaps := s.swaps + if d.full then 1 else 0)
    case SwapDropped =>
      s.(reported := s.reported + s.dropped, dropped := 0, swaps := s.swaps - 1, swapped := s.swapped + 1)
  }

  ghost predicate Init(s: State) {
    && s.queued == 0 && s.dropped == 0 && s.journal == Journal([], [], None, [], [])
    && s.offering == multiset{} && s.slotted == multiset{} && s.refusing == multiset{}
    && s.settling == map[] && s.swaps == 0
    && s.offered == multiset{} && s.refused == multiset{} && s.reported == 0 && s.swapped == 0
  }

  ghost predicate Successor(s: State, t: State) {
    exists step :: Enabled(s, step) && t == Apply(s, step)
  }

  /** The slot counter is exactly the events in the journal, the slots not yet used and the
      batches not yet settled. */
  ghost predicate SlotsOk(s: State) {
    && s.queued == Size(s.journal) + |s.slotted| + Sum(s.settling, CountOf)
    && s.queued <= s.capacity
  }

  /** Every offered event is in exactly one place. */
  ghost predicate EventsOk(s: State) {
    && s.offered == multiset(s.journal.sent) + s.offering + s.slotted + s.refusing + s.refused
    && (forall e :: s.offered[e] <= 1)
    && |s.refused| == s.reported + s.dropped
  }

  ghost predicate Inv(s: State) { JournalOk(s.journal) && SlotsOk(s) && EventsOk(s) }

  lemma SlotMeansRoom(s: State, e: Event)
    requires SlotsOk(s) && e in s.slotted
    ensures !ChannelFull(s)
  {
    assert s.slotted == (s.slotted - multiset{e}) + multiset{e};
  }

  lemma StepKeepsSlots(s: State, step: Step)
    requires SlotsOk(s) && Enabled(s, step)
    ensures SlotsOk(Apply(s, step))
  {
    match step
    case Reserve(e) =>
    case TrySend(e) =>
      SlotMeansRoom(s, e);
      MoveSize(s.journal, SendIn(e));
    case BeginDrain(request) => MoveSize(s.journal, Lock(request));
    case DrainPop => MoveSize(s.journal, Pop);
    case EndDrain(id) =>
      MoveSize(s.journal, Unlock);
      SumInsert(s.settling, CountOf, id, Apply(s, step).settling[id]);
    case FetchSub(id) => SumRemove(s.settling, CountOf, id);
    case _ =>
  }

  lemma OfferKeepsEvents(s: State, e: Event)
    requires EventsOk(s) && Enabled(s, Offer(e))
    ensures EventsOk(Apply(s, Offer(e)))
  {
  }

  lemma DecideKeepsEvents(s: State, step: Step)
    requires EventsOk(s) && Enabled(s, step) && (step.Reserve? || step.Refuse? || step.NoteDropped?)
    ensures EventsOk(Apply(s, step))
  {
    var from := if step.NoteDropped? then s.refusing else s.offering;
    assert from == (from - multiset{step.e}) + multiset{step.e};
  }

  lemma TrySendKeepsEvents(s: State, e: Event)
    requires SlotsOk(s) && EventsOk(s) && Enabled(s, TrySend(e))
    ensures EventsOk(Apply(s, TrySend(e)))
  {
    SlotMeansRoom(s, e);
    assert s.slotted == (s.slotted - multiset{e}) + multiset{e};
    assert multiset(s.journal.sent + [e]) == multiset(s.journal.sent) + multiset{e};
  }

  lemma StepKeepsEvents(s: State, step: Step)
    requires SlotsOk(s) && EventsOk(s) && Enabled(s, step)
    ensures EventsOk(Apply(s, step))
  {
    match step
    case Offer(e) => OfferKeepsEvents(s, e);
    case Reserve(_) => DecideKeepsEvents(s, step);
    case Refuse(_) => DecideKeepsEvents(s, step);
    case NoteDropped(_) => DecideKeepsEvents(s, step);
    case TrySend(e) => TrySendKeepsEvents(s, e);
    case _ =>
      assert Apply(s, step).journal.sent == s.journal.sent;
  }

  lemma StepKeepsJournal(s: State, step: Step)
    requires JournalOk(s.journal) && Enabled(s, step)
    ensures JournalOk(Apply(s, step).journal)
  {
    match step
    case TrySend(e) => MoveKeeps(s.journal, SendIn(e));
    case BeginDrain(request) => MoveKeeps(s.journal, Lock(request));
    case DrainPop => MoveKeeps(s.journal, Pop);
    case EndDrain(id) => MoveKeeps(s.journal, Unlock);
    case _ =>
  }

  lemma SuccessorKeeps(s: State, t: State)
    requires Inv(s) && Successor(s, t)
    ensures Inv(t)
  {
    var step :| Enabled(s, step) && t == Apply(s, step);
    StepKeepsSlots(s, step);
    StepKeepsEvents(s, step);
    StepKeepsJournal(s, step);
  }

  lemma InitOk(s: State)
    requires Init(s)
    ensures Inv(s)
  {
    assert Pipeline(s.journal) == [];
  }

  lemma InvPreserved()
    ensures Preserves(Successor, Inv)
  {
    forall s, t | Inv(s) && Successor(s, t) ensures Inv(t) {
      SuccessorKeeps(s, t);
    }
  }

  lemma RunKeepsInv(run: seq<State>, i: nat)
    requires IsRun(Init, Successor, run) && i < |run|
    ensures Inv(run[i])
  {
    InitOk(run[0]);
    InvPreserved();
    Later(Successor, Inv, run, 0, i);
  }

  // ----- The locked journal is the undisturbed machine -----

  lemma {:induction false} ClaimedConcat(request: Option<nat>, a: seq<Event>, b: seq<Event>)
    ensures Claimed(request, a + b) == Claimed(request, a) + Claimed(request, b)
    ensures Unclaimed(request, a + b) == Unclaimed(request, a) + Unclaimed(request, b)
  {
    if b == [] {
      assert a + b == a;
    } else {
      var c := b[..|b| - 1];
      assert (a + b)[..|a + b| - 1] == a + c;
      ClaimedConcat(request, a, c);
    }
  }

  lemma ClaimedSingle(request: Option<nat>, e: Event)
    ensures Claimed(request, [e]) == if Claims(request, e) then [e] else []
    ensures Unclaimed(request, [e]) == if Claims(request, e) then [] else [e]
  {
    assert [e][..0] == [];
  }

  /** A full drain claims everything. */
  lemma {:induction false} ClaimedByAll(events: seq<Event>)
    ensures Claimed(None, events) == events && Unclaimed(None, events) == []
  {
    if events == [] {
    } else {
      ClaimedByAll(events[..|events| - 1]);
      assert events == events[..|events| - 1] + [events[|events| - 1]];
    }
  }

  /** The journal when the drain that holds the lock has popped everything. */
  function AllPopped(j: Journal): Journal
    requires j.holder.Some?
  {
    var h := j.holder.value;
    j.(channel := [],
       holder := Some(h.(matching := h.matching + Claimed(h.request, j.channel))),
       retained := j.retained + Unclaimed(h.request, j.channel))
  }

  lemma Reassoc(a: seq<Event>, b: seq<Event>, c: seq<Event>)
    ensures a + (b + c) == a + b + c
  {
  }

  lemma PopThenAll(j: Journal)
    requires CanMove(j, Pop)
    ensures AllPopped(MoveTo(j, Pop)) == AllPopped(j)
  {
    var e, rest, h := j.channel[0], j.channel[1..], j.holder.value;
    assert j.channel == [e] + rest;
    ClaimedConcat(h.request, [e], rest);
    ClaimedSingle(h.request, e);
    Reassoc(h.matching, Claimed(h.request, [e]), Claimed(h.request, rest));
    Reassoc(j.retained, Unclaimed(h.request, [e]), Unclaimed(h.request, rest));
    assert h.matching + [] == h.matching && j.retained + [] == j.retained;
  }

  lemma {:induction false} PopsLead(s: State)
    requires s.journal.holder.Some?
    ensures Leads(Successor, s, s.(journal := AllPopped(s.journal)))
    decreases |s.journal.channel|
  {
    if s.journal.channel == [] {
      var h := s.journal.holder.value;
      assert h.matching + [] == h.matching && s.journal.retained + [] == s.journal.retained;
      assert s.(journal := AllPopped(s.journal)) == s;
      LeadsSelf(Successor, s);
    } else {
      var t := Apply(s, DrainPop);
      assert Enabled(s, DrainPop) && Successor(s, t);
      PopThenAll(s.journal);
      PopsLead(t);
      LeadsStep(Successor, s, t, s.(journal := AllPopped(s.journal)));
    }
  }

  /** What a drain returns and what it leaves, as the methods of `LockedJournal` state it. */
  function DrainedJournal(j: Journal, request: Option<nat>): Journal {
    j.(channel := [],
       retained := Unclaimed(request, j.retained) + Unclaimed(request, j.channel),
       batches := j.batches + [Batch(request, Claimed(request, j.retained) + Claimed(request, j.channel))])
  }

  /** A drain that no producer disturbs: lock, pops and unlock have the outcome of the method. */
  lemma UndisturbedDrain(s: State, request: Option<nat>, id: nat)
    requires s.journal.holder.None? && id !in s.settling
    ensures var j := DrainedJournal(s.journal, request);
            var count := |j.batches[|s.journal.batches|].events|;
            Leads(Successor, s, s.(journal := j, settling := s.settling[id := Settling(count, request.None?)]))
    ensures request.None? ==> DrainedJournal(s.journal, request)
                              == Journal([], [], None, s.journal.sent,
                                         s.journal.batches + [Batch(None, s.journal.retained + s.journal.channel)])
  {
    var locked := Apply(s, BeginDrain(request));
    var popped := locked.(journal := AllPopped(locked.journal));
    var done := Apply(popped, EndDrain(id));
    assert Enabled(s, BeginDrain(request)) && Successor(s, locked);
    PopsLead(locked);
    assert Enabled(popped, EndDrain(id)) && Successor(popped, done);
    LeadsSelf(Successor, done);
    LeadsStep(Successor, popped, done, done);
    LeadsTrans(Successor, locked, popped, done);
    LeadsStep(Successor, s, locked, done);
    assert done.journal == DrainedJournal(s.journal, request);
    if request.None? {
      ClaimedByAll(s.journal.retained);
      ClaimedByAll(s.journal.channel);
    }
  }

  // ----- Main results -----

  /** Conservation in every interleaving: an offered event is delivered, still held, still
      being recorded or dropped, exactly one of these; drops are what full drains reported
      plus what is still to be reported; the slot counter stays within the capacity. */
  lemma NothingLostOrDoubled(run: seq<State>, i: nat)
    requires IsRun(Init, Successor, run) && i < |run|
    ensures var s := run[i]; var j := s.journal;
            && s.offered == multiset(Delivered(j.batches)) + multiset(Matching(j)) + multiset(j.retained)
                            + multiset(j.channel) + s.offering + s.slotted + s.refusing + s.refused
            && (forall e :: s.offered[e] <= 1)
            && |s.refused| == s.reported + s.dropped
            && s.queued <= s.capacity
  {
    RunKeepsInv(run, i);
    var j := run[i].journal;
    assert multiset(Pipeline(j)) ==
           multiset(Delivered(j.batches)) + multiset(Matching(j)) + multiset(j.retained) + multiset(j.channel);
  }

  /** A producer holding a slot never meets a full channel. */
  lemma FullBranchUnreachable(run: seq<State>, i: nat, e: Event)
    requires IsRun(Init, Successor, run) && i < |run| && e in run[i].slotted
    ensures !ChannelFull(run[i])
  {
    RunKeepsInv(run, i);
    SlotMeansRoom(run[i], e);
  }

  // ----- Who reports the drops -----

  function IsFull(d: Settling): nat { if d.full then 1 else 0 }

  function FullBatches(batches: seq<Batch>): nat {
    if batches == [] then 0
    else FullBatches(batches[..|batches| - 1]) + if batches[|batches| - 1].request == None then 1 else 0
  }

  /** Every full drain takes the dropped count over once: it has, it is about to, or it has yet
      to settle. */
  ghost predicate ReportsOk(s: State) {
    FullBatches(s.journal.batches) == s.swapped + s.swaps + Sum(s.settling, IsFull)
  }

  lemma FullBatchesSnoc(batches: seq<Batch>, b: Batch)
    ensures FullBatches(batches + [b]) == FullBatches(batches) + if b.request == None then 1 else 0
  {
    assert (batches + [b])[..|batches|] == batches;
  }

  lemma EndKeepsReports(s: State, id: nat)
    requires ReportsOk(s) && Enabled(s, EndDrain(id))
    ensures ReportsOk(Apply(s, EndDrain(id)))
  {
    var h := s.journal.holder.value;
    FullBatchesSnoc(s.journal.batches, Batch(h.request, h.matching));
    SumInsert(s.settling, IsFull, id, Settling(|h.matching|, h.request.None?));
  }

  lemma StepKeepsReports(s: State, step: Step)
    requires ReportsOk(s) && Enabled(s, step)
    ensures ReportsOk(Apply(s, step))
  {
    match step
    case EndDrain(id) => EndKeepsReports(s, id);
    case FetchSub(id) => SumRemove(s.settling, IsFull, id);
    case _ =>
      assert Apply(s, step).journal.batches == s.journal.batches;
  }

  /** The dropped count is reported by full drains only, once each. */
  lemma DropsReportedByFullDrains(run: seq<State>, i: nat)
    requires IsRun(Init, Successor, run) && i < |run|
    ensures FullBatches(run[i].journal.batches) == run[i].swapped + run[i].swaps + Sum(run[i].settling, IsFull)
    ensures i + 1 < |run| && run[i + 1].reported != run[i].reported ==>
              && run[i + 1].swapped == run[i].swapped + 1
              && run[i + 1].reported == run[i].reported + run[i].dropped && run[i + 1].dropped == 0
  {
    forall s, t | ReportsOk(s) && Successor(s, t) ensures ReportsOk(t) {
      var step :| Enabled(s, step) && t == Apply(s, step);
      StepKeepsReports(s, step);
    }
    Later(Successor, ReportsOk, run, 0, i);
    if i + 1 < |run| {
      assert Follows(Successor, run, i);
    }
  }

  // ----- Undisturbed recording and draining -----

  lemma TakeStep(s: State, step: Step, t: State)
    requires Enabled(s, step) && Leads(Successor, Apply(s, step), t)
    ensures Leads(Successor, s, t)
  {
    assert Successor(s, Apply(s, step));
    LeadsStep(Successor, s, Apply(s, step), t);
  }

  /** With a free slot a recorded event enters the journal; with none it is counted as dropped. */
  function Recorded(s: State, e: Event): State {
    var t := s.(offered := s.offered + multiset{e});
    if s.queued < s.capacity
    then t.(queued := s.queued + 1,
            journal := s.journal.(channel := s.journal.channel + [e], sent := s.journal.sent + [e]))
    else t.(refused := s.refused + multiset{e}, dropped := s.dropped + 1)
  }

  lemma AcceptsRecord(s: State, e: Event)
    requires SlotsOk(s) && e !in s.offered && s.queued < s.capacity
    ensures Leads(Successor, s, Recorded(s, e))
  {
    var a := Apply(s, Offer(e));
    var b := Apply(a, Reserve(e));
    StepKeepsSlots(s, Offer(e));
    StepKeepsSlots(a, Reserve(e));
    SlotMeansRoom(b, e);
    assert s.offering + multiset{e} - multiset{e} == s.offering;
    assert s.slotted + multiset{e} - multiset{e} == s.slotted;
    assert Apply(b, TrySend(e)) == Recorded(s, e);
    LeadsSelf(Successor, Recorded(s, e));
    TakeStep(b, TrySend(e), Recorded(s, e));
    TakeStep(a, Reserve(e), Recorded(s, e));
    TakeStep(s, Offer(e), Recorded(s, e));
  }

  lemma RefusesRecord(s: State, e: Event)
    requires e !in s.offered && s.queued >= s.capacity
    ensures Leads(Successor, s, Recorded(s, e))
  {
    var a := Apply(s, Offer(e));
    var b := Apply(a, Refuse(e));
    assert s.offering + multiset{e} - multiset{e} == s.offering;
    assert s.refusing + multiset{e} - multiset{e} == s.refusing;
    assert Apply(b, NoteDropped(e)) == Recorded(s, e);
    LeadsSelf(Successor, Recorded(s, e));
    TakeStep(b, NoteDropped(e), Recorded(s, e));
    TakeStep(a, Refuse(e), Recorded(s, e));
    TakeStep(s, Offer(e), Recorded(s, e));
  }

  lemma UndisturbedRecord(s: State, e: Event)
    requires SlotsOk(s) && e !in s.offered
    ensures Leads(Successor, s, Recorded(s, e))
  {
    if s.queued < s.capacity {
      AcceptsRecord(s, e);
    } else {
      RefusesRecord(s, e);
    }
  }

  /** A drain gives back the slots of its events, and a full one takes the dropped count. */
  function Drained(s: State, request: Option<nat>): State
    requires s.journal.holder.None?
  {
    var j := DrainedJournal(s.journal, request);
    var count := |j.batches[|s.journal.batches|].events|;
    var t := s.(journal := j, queued := if s.queued < count then 0 else s.queued - count);
    if request.None? then t.(reported := s.reported + s.dropped, dropped := 0, swapped := s.swapped + 1) else t
  }

  lemma UndisturbedWholeDrain(s: State, request: Option<nat>, id: nat)
    requires s.journal.holder.None? && id !in s.settling
    ensures Leads(Successor, s, Drained(s, request))
  {
    var j := DrainedJournal(s.journal, request);
    var count := |j.batches[|s.journal.batches|].events|;
    var a := s.(journal := j, settling := s.settling[id := Settling(count, request.None?)]);
    UndisturbedDrain(s, request, id);
    assert a.settling - {id} == s.settling;
    var b := Apply(a, FetchSub(id));
    LeadsSelf(Successor, Drained(s, request));
    if request.None? {
      assert Apply(b, SwapDropped) == Drained(s, request);
      TakeStep(b, SwapDropped, Drained(s, request));
    }
    TakeStep(a, FetchSub(id), Drained(s, request));
    LeadsTrans(Successor, s, a, Drained(s, request));
  }

  /** In every run the events of an undisturbed drain hold that many slots, so the counter falls
      by exactly their number. */
  lemma DrainFreesItsSlots(run: seq<State>, i: nat, request: Option<nat>)
    requires IsRun(Init, Successor, run) && i < |run| && run[i].journal.holder.None?
    ensures var count := |Claimed(request, run[i].journal.retained)| + |Claimed(request, run[i].journal.channel)|;
            Drained(run[i], request).queued == run[i].queued - count
  {
    RunKeepsInv(run, i);
    ClaimSizes(request, run[i].journal.retained);
    ClaimSizes(request, run[i].journal.channel);
  }

  /** Slots in use and undecided offers are among the offered events. */
  predicate WithinOffers(s: State) { s.queued + |s.offering| <= |s.offered| }

  /** Nothing has been refused, unless more events were offered than there are slots. */
  predicate RefusesOnlyBeyond(s: State) {
    |s.offered| <= s.capacity ==> s.refusing == multiset{} && s.refused == multiset{}
  }

  ghost predicate RoomOk(s: State, capacity: nat) {
    Inv(s) && WithinOffers(s) && RefusesOnlyBeyond(s) && s.capacity == capacity
  }

  lemma OfferedStep(s: State, e: Event)
    ensures |s.offered + multiset{e}| == |s.offered| + 1 && |s.offering + multiset{e}| == |s.offering| + 1
    ensures e in s.offering ==> |s.offering - multiset{e}| == |s.offering| - 1
  {
    if e in s.offering {
      assert s.offering == (s.offering - multiset{e}) + multiset{e};
    }
  }

  lemma StepKeepsOffers(s: State, step: Step)
    requires WithinOffers(s) && Enabled(s, step)
    ensures WithinOffers(Apply(s, step)) && Apply(s, step).capacity == s.capacity
  {
    match step
    case Offer(e) => OfferedStep(s, e);
    case Reserve(e) => OfferedStep(s, e);
    case Refuse(e) => OfferedStep(s, e);
    case _ =>
  }

  lemma StepRefusesBeyond(s: State, step: Step)
    requires SlotsOk(s) && WithinOffers(s) && RefusesOnlyBeyond(s) && Enabled(s, step)
    ensures RefusesOnlyBeyond(Apply(s, step))
  {
    match step
    case Offer(e) => OfferedStep(s, e);
    case Refuse(e) => OfferedStep(s, e);
    case TrySend(e) => SlotMeansRoom(s, e);
    case _ =>
  }

  lemma RoomPreserved(capacity: nat)
    ensures Preserves(Successor, (s: State) => RoomOk(s, capacity))
  {
    forall s, t | RoomOk(s, capacity) && Successor(s, t) ensures RoomOk(t, capacity) {
      SuccessorKeeps(s, t);
      var step :| Enabled(s, step) && t == Apply(s, step);
      StepKeepsOffers(s, step);
      StepRefusesBeyond(s, step);
    }
  }

  /** While no more events were offered than the journal has slots, none is dropped: every one
      is delivered, held or on its way, in every interleaving with any drains. */
  lemma NothingDroppedWithinCapacity(run: seq<State>, i: nat)
    requires IsRun(Init, Successor, run) && i < |run| && |run[i].offered| <= run[0].capacity
    ensures run[i].refused == multiset{} && run[i].refusing == multiset{}
  {
    var capacity := run[0].capacity;
    InitOk(run[0]);
    RoomPreserved(capacity);
    Later(Successor, (s: State) => RoomOk(s, capacity), run, 0, i);
  }

  lemma RemovalShrinks(m: multiset<Event>, e: Event)
    requires e in m
    ensures |m - multiset{e}| < |m|
  {
    assert m == (m - multiset{e}) + multiset{e};
  }

  lemma RefusalMeansFull(s: State, step: Step)
    requires SlotsOk(s) && Enabled(s, step)
    ensures |Apply(s, step).refusing| > |s.refusing| ==> s.queued == s.capacity
  {
    match step
    case TrySend(e) => SlotMeansRoom(s, e);
    case NoteDropped(e) => RemovalShrinks(s.refusing, e);
    case _ =>
  }

  /** An event is dropped only at a moment when every slot is in use: by the events in the
      journal, by producers about to send, and by batches whose drain has yet to settle. */
  lemma DropsOnlyWhenFull(run: seq<State>, i: nat)
    requires IsRun(Init, Successor, run) && i + 1 < |run|
    requires |run[i + 1].refusing| > |run[i].refusing|
    ensures var s := run[i]; Size(s.journal) + |s.slotted| + Sum(s.settling, CountOf) == s.capacity
  {
    RunKeepsInv(run, i);
    assert Follows(Successor, run, i);
    var step :| Enabled(run[i], step) && run[i + 1] == Apply(run[i], step);
    RefusalMeansFull(run[i], step);
  }

  /** Whatever the drains: within one request, and among client-scoped events, events are
      delivered in the order in which they were recorded, without a gap. */
  lemma DeliveredInOrder(run: seq<State>, i: nat, scope: Option<nat>)
    requires IsRun(Init, Successor, run) && i < |run|
    ensures var j := run[i].journal; Of(scope, Delivered(j.batches)) <= Of(scope, j.sent)
  {
    RunKeepsInv(run, i);
    var j := run[i].journal;
    OfFour(scope, Delivered(j.batches), Matching(j), j.retained, j.channel);
  }

  /** Whether a drain for `request` must deliver this scope. */
  predicate Served(request: Option<nat>, scope: Option<nat>) {
    request == None || scope == None || scope == request
  }

  lemma {:induction false} OfNone(request: Option<nat>, scope: Option<nat>, events: seq<Event>)
    requires Served(request, scope) && NoneClaimed(request, events)
    ensures Of(scope, events) == []
  {
    if events == [] {
    } else {
      assert !Claims(request, events[|events| - 1]);
      OfNone(request, scope, events[..|events| - 1]);
    }
  }

  /** The step in which a drain ends. */
  predicate Ends(s: State, t: State, request: Option<nat>) {
    |t.journal.batches| > |s.journal.batches| && t.journal.batches[|s.journal.batches|].request == request
  }

  lemma EndsIsUnlock(s: State, step: Step, request: Option<nat>)
    requires Enabled(s, step) && Ends(s, Apply(s, step), request)
    ensures step.EndDrain? && s.journal.holder.Some? && s.journal.holder.value.request == request
    ensures s.journal.channel == []
  {
  }

  lemma UnlockDelivers(j: Journal, scope: Option<nat>)
    requires JournalOk(j) && CanMove(j, Unlock) && Served(j.holder.value.request, scope)
    ensures var k := MoveTo(j, Unlock); Of(scope, Delivered(k.batches)) == Of(scope, k.sent)
  {
    var k := MoveTo(j, Unlock);
    OfNone(j.holder.value.request, scope, j.retained);
    OfFour(scope, Delivered(j.batches), Matching(j), j.retained, j.channel);
    assert k.batches[..|j.batches|] == j.batches;
    OfConcat(scope, Delivered(j.batches), Matching(j));
    assert Of(scope, []) == [];
  }

  /** When a drain ends, everything it serves that was ever sent has been delivered, in order:
      all of its request's events and all client-scoped ones, and for a full drain everything. */
  lemma DrainDeliversItsScope(run: seq<State>, i: nat, request: Option<nat>, scope: Option<nat>)
    requires IsRun(Init, Successor, run) && i + 1 < |run|
    requires Ends(run[i], run[i + 1], request) && Served(request, scope)
    ensures var j := run[i + 1].journal; Of(scope, Delivered(j.batches)) == Of(scope, j.sent)
  {
    RunKeepsInv(run, i);
    assert Follows(Successor, run, i);
    var step :| Enabled(run[i], step) && run[i + 1] == Apply(run[i], step);
    EndsIsUnlock(run[i], step, request);
    UnlockDelivers(run[i].journal, scope);
  }

  /** No batch hands a request another request's event, no event is delivered twice, and a
      client-scoped event is never retained. */
  lemma BatchesAreScoped(run: seq<State>, i: nat)
    requires IsRun(Init, Successor, run) && i < |run|
    ensures var j := run[i].journal;
            && (forall b, k | 0 <= b < |j.batches| && 0 <= k < |j.batches[b].events| && j.batches[b].request.Some? ::
                  var e := j.batches[b].events[k]; e.request.None? || e.request == j.batches[b].request)
            && (forall e :: multiset(Delivered(j.batches))[e] <= 1)
            && (forall k :: 0 <= k < |j.retained| ==> j.retained[k].request.Some?)
  {
    RunKeepsInv(run, i);
    NothingLostOrDoubled(run, i);
    var s := run[i];
    var j := s.journal;
    forall e ensures multiset(Delivered(j.batches))[e] <= 1 {
      assert s.offered[e] <= 1;
    }
    forall b, k | 0 <= b < |j.batches| && 0 <= k < |j.batches[b].events| && j.batches[b].request.Some?
      ensures var e := j.batches[b].events[k]; e.request.None? || e.request == j.batches[b].request
    {
      assert Claims(j.batches[b].request, j.batches[b].events[k]);
    }
  }
}
