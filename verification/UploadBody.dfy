/** The bounded upload channel and the completion verdict of a streaming request body
    (src/core/client/body.rs).

    Three pieces of state under different locks decide `is_complete`: the channel queue, the
    producer state with its count of outstanding frames, and the emitted bytes with the
    frames in flight. One lock-held section is one step. A poll of the body takes two steps,
    what it observes in the channel and what it then does, so senders, frame drops and
    flushes interleave inside it. */
module UploadBody {
  import opened Basics
  import opened Runs

  type Payload = seq<int>

  /** `UploadBodyItem`: a data chunk, or the producer's error message. */
  datatype Item = Data(payload: Payload) | Failure(message: string)

  datatype Producer = Open | Finished | Failed | Aborted

  // ----- Channel -----

  /** The queue under its lock, with the producer completion that it feeds. */
  datatype Channel = Channel(queue: seq<Item>, closed: bool, producer: Producer, outstanding: nat)

  datatype SendResult = Sent | Full | Closed

  /** A compare-exchange from Open: the first verdict on the producer is final. */
  function Settle(producer: Producer, verdict: Producer): Producer {
    if producer.Open? then verdict else producer
  }

  function SendVerdict(c: Channel, capacity: nat): SendResult {
    if c.closed then Closed else if |c.queue| >= capacity then Full else Sent
  }

  function AfterSend(c: Channel, capacity: nat, item: Item, final: bool): Channel {
    if SendVerdict(c, capacity) != Sent then c
    else
      var producer := if item.Failure? then Settle(c.producer, Failed) else c.producer;
      Channel(c.queue + [item],
              final,
              if final then Settle(producer, Finished) else producer,
              c.outstanding + if item.Data? then 1 else 0)
  }

  function AfterFinish(c: Channel): Channel {
    if c.closed then c else c.(closed := true, producer := Settle(c.producer, Finished))
  }

  function AfterAbort(c: Channel): Channel {
    if c.closed then c
    else Channel([], true, Settle(c.producer, Aborted), c.outstanding)
  }

  class UploadBodyChannel {
    const capacity: nat
    var queue: seq<Item>
    var closed: bool
    var producer: Producer
    var outstanding: nat

    ghost function View(): Channel
      reads this
    {
      Channel(queue, closed, producer, outstanding)
    }

    constructor (capacity: nat)
      requires capacity > 0
      ensures View() == Channel([], false, Open, 0) && this.capacity == capacity
    {
      this.capacity := capacity;
      queue, closed, producer, outstanding := [], false, Open, 0;
    }

    method SettleProducer(verdict: Producer)
      modifies `producer
      ensures producer == Settle(old(producer), verdict)
    {
      if producer == Open {
        producer := verdict;
      }
    }

    method SendNowait(item: Item, finish: bool) returns (r: SendResult)
      modifies this
      ensures r == SendVerdict(old(View()), capacity)
      ensures View() == AfterSend(old(View()), capacity, item, finish)
    {
      if closed {
        return Closed;
      }
      if |queue| >= capacity {
        return Full;
      }
      queue := queue + [item];
      if item.Data? {
        outstanding := outstanding + 1;
      }
      if item.Failure? {
        SettleProducer(Failed);
      }
      if finish {
        SettleProducer(Finished);
        closed := true;
      }
      return Sent;
    }

    method Finish() returns (ok: bool)
      modifies this
      ensures ok == !old(closed) && View() == AfterFinish(old(View()))
    {
      if closed {
        return false;
      }
      SettleProducer(Finished);
      closed := true;
      return true;
    }

    method Abort()
      modifies this
      ensures View() == AfterAbort(old(View()))
    {
      if closed {
        return;
      }
      SettleProducer(Aborted);
      closed := true;
      queue := [];
    }

    method PollRecv() returns (seen: Observation)
      modifies `queue
      ensures seen == Observe(old(View()))
      ensures View() == AfterObserve(old(View()))
    {
      if queue != [] {
        seen := Popped(queue[0]);
        queue := queue[1..];
      } else if closed {
        seen := SawClosed;
      } else {
        seen := SawPending;
      }
    }

    /** The compare-exchange loop of `data_frame_consumed`. */
    method DataFrameConsumed()
      modifies `outstanding
      ensures outstanding == Saturated(old(outstanding))
    {
      if outstanding > 0 {
        outstanding := outstanding - 1;
      }
    }
  }

  function Saturated(n: nat): nat { if n == 0 then 0 else n - 1 }

  /** What a poll found: nothing left because the body already ended, an item, the end of a
      closed channel, or an empty open channel. */
  datatype Observation = SawEnd | Popped(item: Item) | SawClosed | SawPending

  function Observe(c: Channel): Observation {
    if c.queue != [] then Popped(c.queue[0]) else if c.closed then SawClosed else SawPending
  }

  function AfterObserve(c: Channel): Channel {
    if c.queue != [] then c.(queue := c.queue[1..]) else c
  }

  // ----- Completion -----

  datatype Completion = Completion(emitted: nat, reachedEof: bool, failed: bool, inFlight: nat, flushed: bool)

  predicate IsData(seen: Observation) { seen.Popped? && seen.item.Data? }

  /** The body is finished by a closed channel, by the producer's error, or by a timeout. */
  predicate Ends(seen: Observation, timeoutFires: bool) {
    match seen
    case SawEnd => false
    case SawClosed => true
    case SawPending => timeoutFires
    case Popped(item) => item.Failure?
  }

  /** How a poll's result is accounted: end of body, failure, or one more emitted frame. */
  function Account(c: Completion, seen: Observation, timeoutFires: bool): Completion {
    match seen
    case SawEnd => c.(reachedEof := true)
    case SawClosed => c.(reachedEof := true)
    case SawPending => if timeoutFires then c.(failed := true) else c
    case Popped(Failure(_)) => c.(failed := true)
    case Popped(Data(p)) => c.(inFlight := c.inFlight + 1, emitted := Min(c.emitted + |p|, U64_MAX))
  }

  function AfterConsumed(c: Completion): Completion { c.(inFlight := Saturated(c.inFlight)) }

  predicate WireEnded(c: Completion, expected: Option<nat>) {
    match expected
    case Some(e) => c.emitted == e
    case None => c.reachedEof
  }

  function AfterFlush(c: Completion, expected: Option<nat>): Completion {
    if WireEnded(c, expected) && c.inFlight == 0 then c.(flushed := true) else c
  }

  predicate Verdict(c: Completion, channel: Channel, expected: Option<nat>) {
    && WireEnded(c, expected)
    && channel.producer == Finished
    && channel.outstanding == 0
    && !c.failed
    && c.inFlight == 0
    && c.flushed
  }

  class RequestBodyCompletion {
    const expected: Option<nat>
    const channel: UploadBodyChannel
    var emitted: nat
    var reachedEof: bool
    var failed: bool
    var inFlight: nat
    var flushed: bool

    ghost function View(): Completion
      reads this
    {
      Completion(emitted, reachedEof, failed, inFlight, flushed)
    }

    constructor (expected: Option<nat>, channel: UploadBodyChannel)
      ensures View() == Completion(0, false, false, 0, false)
      ensures this.expected == expected && this.channel == channel
    {
      this.expected, this.channel := expected, channel;
      emitted, reachedEof, failed, inFlight, flushed := 0, false, false, 0, false;
    }

    method TrackData(payload: Payload)
      modifies this
      ensures View() == Account(old(View()), Popped(Data(payload)), false)
    {
      inFlight := inFlight + 1;
      emitted := if emitted + |payload| > U64_MAX then U64_MAX else emitted + |payload|;
    }

    method MarkEof()
      modifies this
      ensures View() == Account(old(View()), SawEnd, false)
    {
      reachedEof := true;
    }

    method MarkFailed()
      modifies this
      ensures View() == Account(old(View()), SawPending, true)
    {
      failed := true;
    }

    /** The drop of an emitted frame, under the completion lock. */
    method DataConsumed()
      modifies this, channel`outstanding
      ensures View() == AfterConsumed(old(View()))
      ensures channel.View() == old(channel.View()).(outstanding := Saturated(old(channel.outstanding)))
    {
      if inFlight > 0 {
        inFlight := inFlight - 1;
      }
      channel.DataFrameConsumed();
    }

    method MarkTransportFlushed()
      modifies this
      ensures View() == AfterFlush(old(View()), expected)
    {
      var ended := match expected case Some(e) => emitted == e case None => reachedEof;
      if ended && inFlight == 0 {
        flushed := true;
      }
    }

    method IsComplete() returns (complete: bool)
      ensures complete == Verdict(View(), channel.View(), expected)
    {
      var ended := match expected case Some(e) => emitted == e case None => reachedEof;
      complete := ended && channel.producer == Finished && channel.outstanding == 0
                  && !failed && inFlight == 0 && flushed;
    }
  }

  class TrackedRequestBody {
    const channel: UploadBodyChannel
    const completion: RequestBodyCompletion
    const hasTimeout: bool
    var finished: bool

    constructor (channel: UploadBodyChannel, completion: RequestBodyCompletion, hasTimeout: bool)
      ensures this.channel == channel && this.completion == completion
      ensures this.hasTimeout == hasTimeout && !finished
    {
      this.channel, this.completion, this.hasTimeout := channel, completion, hasTimeout;
      finished := false;
    }

    /** One poll without interference: the two halves of the state machine in sequence. */
    method PollFrame(timeoutFires: bool) returns (seen: Observation)
      requires completion.channel == channel
      modifies this, channel, completion
      ensures seen == if old(finished) then SawEnd else Observe(old(channel.View()))
      ensures channel.View() == if old(finished) then old(channel.View()) else AfterObserve(old(channel.View()))
      ensures completion.View() == Account(old(completion.View()), seen, timeoutFires && hasTimeout)
      ensures finished == (old(finished) || Ends(seen, timeoutFires && hasTimeout))
    {
      if finished {
        completion.MarkEof();
        return SawEnd;
      }
      seen := channel.PollRecv();
      match seen
      case Popped(Data(p)) =>
        completion.TrackData(p);
      case Popped(Failure(_)) =>
        finished := true;
        completion.MarkFailed();
      case SawClosed =>
        finished := true;
        completion.MarkEof();
      case SawPending =>
        if timeoutFires && hasTimeout {
          finished := true;
          completion.MarkFailed();
        }
    }
  }

  // ----- The whole body -----

  /** A frame handed to the transport, and whether its bytes have been dropped again. */
  datatype Frame = Frame(payload: Payload, released: bool)

  datatype Polling = NotPolling | Polling(seen: Observation)

  /** `accepted` and `received` are the history of the channel's two ends, `cleared` whether
      an abort threw the queue away. */
  datatype State = State(
    capacity: nat,
    expected: Option<nat>,
    hasTimeout: bool,
    channel: Channel,
    completion: Completion,
    bodyAlive: bool,
    bodyFinished: bool,
    polling: Polling,
    frames: seq<Frame>,
    accepted: seq<Item>,
    received: seq<Item>,
    cleared: bool)

  predicate IsComplete(s: State) { Verdict(s.completion, s.channel, s.expected) }

  datatype Step =
    | Send(item: Item, final: bool)
    | Finish
    | Close
    | PollBegin
    | PollEnd(timeoutFires: bool)
    | ReleaseFrame(i: nat)
    | DropBody
    | MarkFlushed

  predicate Enabled(s: State, step: Step) {
    match step
    case PollBegin => s.bodyAlive && s.polling.NotPolling?
    case PollEnd(fires) => s.polling.Polling? && (fires ==> s.polling.seen.SawPending? && s.hasTimeout)
    case ReleaseFrame(i) => i < |s.frames| && !s.frames[i].released
    case DropBody => s.bodyAlive && s.polling.NotPolling?
    case _ => true
  }

  function Abort(s: State): State {
    s.(channel := AfterAbort(s.channel), cleared := s.cleared || !s.channel.closed)
  }

  /** The second half of a poll: the wrapper accounts for what the body returned. */
  function EndPoll(s: State, fires: bool): State
    requires Enabled(s, PollEnd(fires))
  {
    var seen := s.polling.seen;
    s.(polling := NotPolling,
       completion := Account(s.completion, seen, fires),
       bodyFinished := s.bodyFinished || Ends(seen, fires),
       frames := s.frames + if IsData(seen) then [Frame(seen.item.payload, false)] else [])
  }

  function Apply(s: State, step: Step): State
    requires Enabled(s, step)
  {
    match step
    case Send(item, final) =>
      s.(channel := AfterSend(s.channel, s.capacity, item, final),
         accepted := if SendVerdict(s.channel, s.capacity) == Sent then s.accepted + [item] else s.accepted)
    case Finish => s.(channel := AfterFinish(s.channel))
    case Close => Abort(s)
    case PollBegin =>
      if s.bodyFinished then s.(polling := Polling(SawEnd))
      else
        var seen := Observe(s.channel);
        s.(polling := Polling(seen), channel := AfterObserve(s.channel),
           received := if seen.Popped? then s.received + [seen.item] else s.received)
    case PollEnd(fires) => EndPoll(s, fires)
    case ReleaseFrame(i) =>
      s.(frames := s.frames[i := s.frames[i].(released := true)],
         completion := AfterConsumed(s.completion),
         channel := s.channel.(outstanding := Saturated(s.channel.outstanding)))
    case DropBody => Abort(s.(bodyAlive := false))
    case MarkFlushed =>
      s.(completion := AfterFlush(s.completion, s.expected))
  }

  // ----- Runs -----

  ghost predicate Init(s: State) {
    && s.capacity > 0
    && (s.expected.Some? ==> 0 < s.expected.value <= U64_MAX)
    && s.channel == Channel([], false, Open, 0)
    && s.completion == Completion(0, false, false, 0, false)
    && s.bodyAlive && !s.bodyFinished && s.polling == NotPolling
    && s.frames == [] && s.accepted == [] && s.received == [] && !s.cleared
  }

  ghost predicate Successor(s: State, t: State) {
    exists step :: Enabled(s, step) && t == Apply(s, step)
  }

  // ----- What every run keeps -----

  /** The payloads of the data items, in order. */
  function DataOf(items: seq<Item>): seq<Payload> {
    if items == [] then []
    else
      var last := items[|items| - 1];
      DataOf(items[..|items| - 1]) + if last.Data? then [last.payload] else []
  }

  function Payloads(frames: seq<Frame>): (r: seq<Payload>)
    ensures |r| == |frames|
    ensures forall i :: 0 <= i < |frames| ==> r[i] == frames[i].payload
  {
    seq(|frames|, i requires 0 <= i < |frames| => frames[i].payload)
  }

  function Live(frames: seq<Frame>): (n: nat)
    ensures n <= |frames|
  {
    if frames == [] then 0
    else Live(frames[..|frames| - 1]) + if frames[|frames| - 1].released then 0 else 1
  }

  function Total(payloads: seq<Payload>): nat {
    if payloads == [] then 0 else Total(payloads[..|payloads| - 1]) + |payloads[|payloads| - 1]|
  }

  predicate HasFailure(items: seq<Item>) { exists i :: 0 <= i < |items| && items[i].Failure? }

  /** The item a poll is handling is the last one received. */
  predicate PollOk(s: State) {
    s.polling.Polling? && s.polling.seen.Popped? ==>
      s.received != [] && s.received[|s.received| - 1] == s.polling.seen.item
  }

  /** The channel: bounded, in order, and its verdict tells whether an error was accepted. */
  predicate ChannelOk(s: State) {
    var c := s.channel;
    && |c.queue| <= s.capacity
    && (c.producer.Open? ==> !c.closed)
    && (c.producer.Finished? || c.producer.Aborted? ==> c.closed)
    && (s.cleared ==> c.closed && c.queue == [] && !c.producer.Finished? && !c.producer.Open?)
    && s.received + c.queue <= s.accepted
    && (!s.cleared ==> s.received + c.queue == s.accepted)
    && (HasFailure(s.accepted) <==> c.producer.Failed?)
    && PollOk(s)
  }

  /** The frames: what was popped is being handled or was emitted, once. */
  predicate FramesOk(s: State) {
    && DataOf(s.received) ==
       Payloads(s.frames) +
       (if s.polling.Polling? && IsData(s.polling.seen) then [s.polling.seen.item.payload] else [])
    && s.completion.inFlight == Live(s.frames)
    && s.channel.outstanding + |s.frames| == |DataOf(s.accepted)| + Live(s.frames)
    && s.completion.emitted == Min(Total(Payloads(s.frames)), U64_MAX)
  }

  predicate Inv(s: State) { ChannelOk(s) && FramesOk(s) }

  lemma DataOfSnoc(items: seq<Item>, item: Item)
    ensures DataOf(items + [item]) == DataOf(items) + if item.Data? then [item.payload] else []
  {
    assert (items + [item])[..|items|] == items;
  }

  lemma {:induction false} DataOfPrefix(a: seq<Item>, b: seq<Item>)
    requires a <= b
    ensures DataOf(a) <= DataOf(b)
    ensures a < b && !HasFailure(b) ==> |DataOf(a)| < |DataOf(b)|
    decreases |b|
  {
    if a == b {
    } else {
      var c := b[..|b| - 1];
      DataOfPrefix(a, c);
      assert b == c + [b[|b| - 1]];
      if !HasFailure(b) {
        assert forall i :: 0 <= i < |c| ==> c[i] == b[i];
      }
    }
  }

  lemma HasFailureSnoc(items: seq<Item>, item: Item)
    ensures HasFailure(items + [item]) == (HasFailure(items) || item.Failure?)
  {
    var all := items + [item];
    assert all[|items|] == item;
    assert forall i :: 0 <= i < |items| ==> all[i] == items[i];
  }

  lemma FramesSnoc(frames: seq<Frame>, p: Payload)
    ensures Live(frames + [Frame(p, false)]) == Live(frames) + 1
    ensures Payloads(frames + [Frame(p, false)]) == Payloads(frames) + [p]
    ensures Total(Payloads(frames) + [p]) == Total(Payloads(frames)) + |p|
  {
    assert (frames + [Frame(p, false)])[..|frames|] == frames;
    assert (Payloads(frames) + [p])[..|frames|] == Payloads(frames);
  }

  lemma {:induction false} LiveRelease(frames: seq<Frame>, i: nat)
    requires i < |frames| && !frames[i].released
    ensures Live(frames[i := frames[i].(released := true)]) == Live(frames) - 1
  {
    var n := |frames| - 1;
    var after := frames[i := frames[i].(released := true)];
    if i < n {
      LiveRelease(frames[..n], i);
      assert after[..n] == frames[..n][i := frames[i].(released := true)];
    } else {
      assert after[..n] == frames[..n];
    }
  }

  lemma {:induction false} NoneLive(frames: seq<Frame>)
    requires Live(frames) == 0
    ensures forall i :: 0 <= i < |frames| ==> frames[i].released
  {
    if frames == [] {
    } else {
      NoneLive(frames[..|frames| - 1]);
    }
  }

  lemma SendKeepsChannel(s: State, item: Item, final: bool)
    requires ChannelOk(s)
    ensures ChannelOk(Apply(s, Send(item, final)))
  {
    HasFailureSnoc(s.accepted, item);
    assert s.received + (s.channel.queue + [item]) == s.received + s.channel.queue + [item];
  }

  lemma SendKeepsFrames(s: State, item: Item, final: bool)
    requires FramesOk(s)
    ensures FramesOk(Apply(s, Send(item, final)))
  {
    DataOfSnoc(s.accepted, item);
  }

  lemma SendKeeps(s: State, item: Item, final: bool)
    requires Inv(s)
    ensures Inv(Apply(s, Send(item, final)))
  {
    SendKeepsChannel(s, item, final);
    SendKeepsFrames(s, item, final);
  }

  lemma PollBeginKeeps(s: State)
    requires Inv(s) && Enabled(s, PollBegin)
    ensures Inv(Apply(s, PollBegin))
  {
    var q := s.channel.queue;
    if q != [] && !s.bodyFinished {
      assert s.received + [q[0]] + q[1..] == s.received + q;
      DataOfSnoc(s.received, q[0]);
    }
  }

  lemma EmitKeepsChannel(s: State, p: Payload)
    requires ChannelOk(s) && s.polling == Polling(Popped(Data(p)))
    ensures ChannelOk(EndPoll(s, false))
  {
  }

  lemma EmitKeepsFrames(s: State, p: Payload)
    requires FramesOk(s) && s.polling == Polling(Popped(Data(p)))
    ensures FramesOk(EndPoll(s, false))
  {
    FramesSnoc(s.frames, p);
    assert EndPoll(s, false).frames == s.frames + [Frame(p, false)];
    assert Payloads(s.frames) + [p] + [] == Payloads(s.frames) + [p];
  }

  lemma EmitKeeps(s: State, p: Payload)
    requires Inv(s) && s.polling == Polling(Popped(Data(p)))
    ensures Inv(EndPoll(s, false))
  {
    EmitKeepsChannel(s, p);
    EmitKeepsFrames(s, p);
  }

  /** A poll that brought no data moves only flags, which do not matter to the accounts. */
  function Quiet(s: State, eof: bool, failed: bool, finished: bool): State {
    s.(polling := NotPolling, bodyFinished := finished,
       completion := s.completion.(reachedEof := eof, failed := failed))
  }

  lemma QuietKeeps(s: State, eof: bool, failed: bool, finished: bool)
    requires Inv(s) && !(s.polling.Polling? && IsData(s.polling.seen))
    ensures Inv(Quiet(s, eof, failed, finished))
  {
  }

  lemma QuietPoll(s: State, fires: bool)
    requires Enabled(s, PollEnd(fires)) && !IsData(s.polling.seen)
    ensures exists eof, failed, finished :: EndPoll(s, fires) == Quiet(s, eof, failed, finished)
  {
    var t := EndPoll(s, fires);
    assert t == Quiet(s, t.completion.reachedEof, t.completion.failed, t.bodyFinished);
  }

  lemma PollEndKeeps(s: State, fires: bool)
    requires Inv(s) && Enabled(s, PollEnd(fires))
    ensures Inv(EndPoll(s, fires))
  {
    if IsData(s.polling.seen) {
      EmitKeeps(s, s.polling.seen.item.payload);
    } else {
      QuietPoll(s, fires);
      var eof, failed, finished :| EndPoll(s, fires) == Quiet(s, eof, failed, finished);
      QuietKeeps(s, eof, failed, finished);
    }
  }

  lemma ReleaseKeeps(s: State, i: nat)
    requires Inv(s) && Enabled(s, ReleaseFrame(i))
    ensures Inv(Apply(s, ReleaseFrame(i)))
  {
    LiveRelease(s.frames, i);
    assert Payloads(Apply(s, ReleaseFrame(i)).frames) == Payloads(s.frames);
    ReceivedWithinAccepted(s);
  }

  lemma ReceivedWithinAccepted(s: State)
    requires Inv(s)
    ensures |s.frames| <= |DataOf(s.received)| <= |DataOf(s.accepted)|
  {
    assert s.received <= s.accepted;
    DataOfPrefix(s.received, s.accepted);
  }

  lemma AbortKeeps(s: State)
    requires Inv(s)
    ensures Inv(Abort(s)) && Inv(s.(channel := AfterFinish(s.channel)))
  {
    assert s.received + [] == s.received;
  }

  lemma FlushKeeps(s: State)
    requires Inv(s)
    ensures Inv(Apply(s, MarkFlushed))
  {
  }

  lemma StepKeeps(s: State, step: Step)
    requires Inv(s) && Enabled(s, step)
    ensures Inv(Apply(s, step))
  {
    match step
    case Send(item, final) => SendKeeps(s, item, final);
    case PollBegin => PollBeginKeeps(s);
    case PollEnd(fires) => PollEndKeeps(s, fires);
    case ReleaseFrame(i) => ReleaseKeeps(s, i);
    case Finish => AbortKeeps(s);
    case Close => AbortKeeps(s);
    case DropBody => AbortKeeps(s.(bodyAlive := false));
    case MarkFlushed => FlushKeeps(s);
  }

  lemma SuccessorKeeps(s: State, t: State)
    requires Inv(s) && Successor(s, t)
    ensures Inv(t)
  {
    var step :| Enabled(s, step) && t == Apply(s, step);
    StepKeeps(s, step);
  }

  lemma SuccessorKeepsSetup(s: State, t: State)
    requires Successor(s, t)
    ensures t.capacity == s.capacity && t.expected == s.expected
  {
  }

  /** The invariant together with what a run never changes. */
  ghost predicate Keeps(s: State, capacity: nat, expected: Option<nat>) {
    Inv(s) && s.capacity == capacity && s.expected == expected
  }

  lemma KeepsPreserved(capacity: nat, expected: Option<nat>)
    ensures Preserves(Successor, (s: State) => Keeps(s, capacity, expected))
  {
    forall s, t | Keeps(s, capacity, expected) && Successor(s, t) ensures Keeps(t, capacity, expected) {
      SuccessorKeeps(s, t);
      SuccessorKeepsSetup(s, t);
    }
  }

  lemma RunKeepsInv(run: seq<State>, i: nat)
    requires IsRun(Init, Successor, run) && i < |run|
    ensures Keeps(run[i], run[0].capacity, run[0].expected)
  {
    var capacity, expected := run[0].capacity, run[0].expected;
    KeepsPreserved(capacity, expected);
    Later(Successor, (s: State) => Keeps(s, capacity, expected), run, 0, i);
  }

  // ----- Main results -----

  /** In every run: `is_complete` means that the producer finished, that it never sent an
      error, that every accepted chunk was received, emitted and released, and that a
      declared length is exactly the number of accepted bytes (unless both are beyond the
      largest u64). */
  lemma CompleteMeansEverythingSent(run: seq<State>, i: nat)
    requires IsRun(Init, Successor, run) && i < |run| && IsComplete(run[i])
    ensures var s := run[i];
            && s.channel.producer == Finished && s.channel.queue == []
            && !HasFailure(s.accepted)
            && s.received == s.accepted
            && Payloads(s.frames) == DataOf(s.accepted)
            && (forall k :: 0 <= k < |s.frames| ==> s.frames[k].released)
            && (s.expected.None? ==> s.completion.reachedEof)
            && (s.expected.Some? ==>
                  Total(DataOf(s.accepted)) == s.expected.value
                  || (s.expected.value == U64_MAX && Total(DataOf(s.accepted)) > U64_MAX))
  {
    var s := run[i];
    RunKeepsInv(run, i);
    CompleteAccounts(s);
  }

  lemma CompleteAccounts(s: State)
    requires Inv(s) && IsComplete(s)
    ensures s.channel.queue == [] && s.received == s.accepted && !HasFailure(s.accepted)
    ensures Payloads(s.frames) == DataOf(s.accepted)
    ensures forall k :: 0 <= k < |s.frames| ==> s.frames[k].released
    ensures s.polling.Polling? ==> !s.polling.seen.Popped?
  {
    ReceivedWithinAccepted(s);
    DataOfPrefix(s.received, s.accepted);
    NoneLive(s.frames);
    assert s.received + s.channel.queue == s.accepted;
    assert PollOk(s);
  }

  /** The one way to lose a complete verdict: a poll that found the channel empty and open
      has yet to look at its write timeout. */
  predicate TimeoutPending(s: State) { s.hasTimeout && s.polling == Polling(SawPending) }

  /** In every run: the next step keeps a complete verdict, whatever it is, iff no such poll
      is under way. */
  lemma CompleteIsStable(run: seq<State>, i: nat)
    requires IsRun(Init, Successor, run) && i < |run| && IsComplete(run[i])
    ensures (forall step | Enabled(run[i], step) :: IsComplete(Apply(run[i], step))) <==> !TimeoutPending(run[i])
  {
    var s := run[i];
    RunKeepsInv(run, i);
    if TimeoutPending(s) {
      assert Enabled(s, PollEnd(true)) && !IsComplete(Apply(s, PollEnd(true)));
    } else {
      forall step | Enabled(s, step) ensures IsComplete(Apply(s, step)) {
        CompleteStep(s, step);
      }
    }
  }

  lemma TakeStep(run: seq<State>, step: Step) returns (longer: seq<State>)
    requires IsRun(Init, Successor, run) && Enabled(run[|run| - 1], step)
    ensures IsRun(Init, Successor, longer) && longer == run + [Apply(run[|run| - 1], step)]
  {
    longer := Extend(Successor, run, Apply(run[|run| - 1], step));
  }

  /** A declared length of one byte, a write timeout, and the byte emitted but not released. */
  function OneByteOut(released: bool): State {
    State(1, Some(1), true, Channel([], false, Open, if released then 0 else 1),
          Completion(1, false, false, if released then 0 else 1, released),
          true, false, NotPolling, [Frame([7], released)], [Data([7])], [Data([7])], false)
  }

  lemma EmitsOneByte() returns (run: seq<State>)
    ensures IsRun(Init, Successor, run) && run[|run| - 1] == OneByteOut(false)
  {
    run := [State(1, Some(1), true, Channel([], false, Open, 0), Completion(0, false, false, 0, false),
                  true, false, NotPolling, [], [], [], false)];
    run := TakeStep(run, Send(Data([7]), false));
    run := TakeStep(run, PollBegin);
    assert run[2].polling == Polling(Popped(Data([7])));
    run := TakeStep(run, PollEnd(false));
    assert run[3] == OneByteOut(false);
  }

  lemma ReleasesOneByte() returns (run: seq<State>)
    ensures IsRun(Init, Successor, run) && run[|run| - 1] == OneByteOut(true)
  {
    run := EmitsOneByte();
    run := TakeStep(run, ReleaseFrame(0));
    run := TakeStep(run, MarkFlushed);
  }

  /** A first poll finds the channel empty and starts the write timeout. */
  lemma WaitsOnce() returns (run: seq<State>)
    ensures IsRun(Init, Successor, run) && run[|run| - 1] == OneByteOut(true)
  {
    run := ReleasesOneByte();
    run := TakeStep(run, PollBegin);
    run := TakeStep(run, PollEnd(false));
  }

  /** Such a loss does occur: every declared byte is out and flushed, a poll finds the channel
      empty and waits, another poll finds it empty and open, the producer finishes, and then the
      write timeout fires. */
  lemma VerdictIsLost() returns (run: seq<State>, i: nat)
    ensures IsRun(Init, Successor, run) && i + 1 < |run|
    ensures IsComplete(run[i]) && TimeoutPending(run[i])
    ensures run[i + 1] == Apply(run[i], PollEnd(true)) && !IsComplete(run[i + 1])
  {
    run := WaitsOnce();
    run := TakeStep(run, PollBegin);
    run := TakeStep(run, Finish);
    i := |run| - 1;
    run := TakeStep(run, PollEnd(true));
  }

  lemma CompleteStep(s: State, step: Step)
    requires Inv(s) && IsComplete(s) && Enabled(s, step) && !TimeoutPending(s)
    ensures IsComplete(Apply(s, step)) && !TimeoutPending(Apply(s, step))
  {
    CompleteAccounts(s);
  }

  ghost predicate CompleteCalmly(s: State) { Inv(s) && IsComplete(s) && !TimeoutPending(s) }

  lemma CompletePreserved()
    ensures Preserves(Successor, CompleteCalmly)
  {
    forall s, t | CompleteCalmly(s) && Successor(s, t) ensures CompleteCalmly(t) {
      SuccessorKeeps(s, t);
      var step :| Enabled(s, step) && t == Apply(s, step);
      CompleteStep(s, step);
    }
  }

  lemma SettledSuccessor(s: State, t: State)
    requires Successor(s, t)
    ensures !s.channel.producer.Open? ==> t.channel.producer == s.channel.producer
    ensures s.channel.closed ==> t.channel.closed && t.accepted == s.accepted
  {
    var step :| Enabled(s, step) && t == Apply(s, step);
    SettledStep(s, step);
  }

  lemma SettledStep(s: State, step: Step)
    requires Enabled(s, step)
    ensures !s.channel.producer.Open? ==> Apply(s, step).channel.producer == s.channel.producer
    ensures s.channel.closed ==> Apply(s, step).channel.closed && Apply(s, step).accepted == s.accepted
  {
  }

  /** With a poll as one step no state of the run is inside a poll, and then a complete
      verdict stays: under every later poll, send, finish, close, flush or drop. */
  lemma CompleteForever(run: seq<State>, i: nat, j: nat)
    requires IsRun(Init, Successor, run) && i <= j < |run|
    requires IsComplete(run[i]) && !TimeoutPending(run[i])
    ensures IsComplete(run[j]) && !TimeoutPending(run[j])
  {
    RunKeepsInv(run, i);
    CompletePreserved();
    Later(Successor, CompleteCalmly, run, i, j);
  }

  predicate Condemned(s: State, producer: Producer) {
    s.channel.producer == producer && (producer.Failed? || producer.Aborted?)
  }

  /** A failed or aborted producer is never complete again. */
  lemma FailureIsForever(run: seq<State>, i: nat, j: nat)
    requires IsRun(Init, Successor, run) && i <= j < |run|
    requires run[i].channel.producer.Failed? || run[i].channel.producer.Aborted?
    ensures run[j].channel.producer == run[i].channel.producer && !IsComplete(run[j])
  {
    var producer := run[i].channel.producer;
    forall s, t | Condemned(s, producer) && Successor(s, t) ensures Condemned(t, producer) {
      SettledSuccessor(s, t);
    }
    Later(Successor, (s: State) => Condemned(s, producer), run, i, j);
  }

  /** The channel is a bounded queue: what is received is a prefix of what was accepted, all
      of it once a finished channel is empty, and never more than the capacity waits. */
  lemma ChannelDeliversInOrder(run: seq<State>, i: nat)
    requires IsRun(Init, Successor, run) && i < |run|
    ensures run[i].received <= run[i].accepted
    ensures run[i].channel.producer.Finished? && run[i].channel.queue == [] ==> run[i].received == run[i].accepted
    ensures |run[i].channel.queue| <= run[0].capacity
  {
    RunKeepsInv(run, i);
  }

  predicate ClosedWith(s: State, accepted: seq<Item>) { s.channel.closed && s.accepted == accepted }

  /** Nothing is accepted after finish, a final send or an abort. */
  lemma ClosedAcceptsNothing(run: seq<State>, i: nat, j: nat)
    requires IsRun(Init, Successor, run) && i <= j < |run| && run[i].channel.closed
    ensures run[j].channel.closed && run[j].accepted == run[i].accepted
  {
    var accepted := run[i].accepted;
    forall s, t | ClosedWith(s, accepted) && Successor(s, t) ensures ClosedWith(t, accepted) {
      SettledSuccessor(s, t);
    }
    Later(Successor, (s: State) => ClosedWith(s, accepted), run, i, j);
  }
}
