/** When an upload is complete, and that every upload can be: the converse of the verdict's
    meaning (src/core/client/body.rs). */
module UploadProgress {
  import opened Basics
  import opened Runs
  import opened UploadBody

  // ----- The verdict, exactly -----

  /** Every accepted chunk has been emitted, in order, and dropped again by the transport. */
  predicate AllSent(s: State) {
    Payloads(s.frames) == DataOf(s.accepted) && forall k :: 0 <= k < |s.frames| ==> s.frames[k].released
  }

  /** The wire has seen the whole body: all declared bytes, or, for a body of unknown length,
      its end. */
  predicate BodyEnded(s: State) {
    match s.expected
    case Some(e) => Min(Total(Payloads(s.frames)), U64_MAX) == e
    case None => s.completion.reachedEof
  }

  lemma {:induction false} AllReleased(frames: seq<Frame>)
    requires forall k :: 0 <= k < |frames| ==> frames[k].released
    ensures Live(frames) == 0
  {
    if frames == [] {
    } else {
      AllReleased(frames[..|frames| - 1]);
    }
  }

  lemma SentMeansDrained(s: State)
    requires Inv(s)
    ensures AllSent(s) <==> s.channel.outstanding == 0 && s.completion.inFlight == 0
  {
    ReceivedWithinAccepted(s);
    DataOfPrefix(s.received, s.accepted);
    if AllSent(s) {
      AllReleased(s.frames);
      assert |Payloads(s.frames)| == |s.frames|;
    }
    if s.channel.outstanding == 0 && s.completion.inFlight == 0 {
      NoneLive(s.frames);
      DrainedMeansAll(s);
    }
  }

  lemma DrainedMeansAll(s: State)
    requires Inv(s) && |s.frames| == |DataOf(s.accepted)|
    ensures Payloads(s.frames) == DataOf(s.accepted)
  {
    ReceivedWithinAccepted(s);
    DataOfPrefix(s.received, s.accepted);
    assert Payloads(s.frames) <= DataOf(s.received) <= DataOf(s.accepted);
  }

  /** In every run the body is complete exactly when the producer finished, no error was
      returned, every accepted chunk was emitted and dropped, the wire has seen the whole body
      and the transport flushed. */
  lemma CompleteIff(run: seq<State>, i: nat)
    requires IsRun(Init, Successor, run) && i < |run|
    ensures var s := run[i];
            IsComplete(s) <==>
              && s.channel.producer.Finished? && !s.completion.failed && s.completion.flushed
              && AllSent(s) && BodyEnded(s)
  {
    RunKeepsInv(run, i);
    SentMeansDrained(run[i]);
  }

  /** In every run: once the producer finished without an error, every accepted chunk was
      emitted and dropped and the wire has seen the whole body, a flush completes it. */
  lemma FlushCompletes(run: seq<State>, i: nat)
    requires IsRun(Init, Successor, run) && i < |run|
    requires var s := run[i];
             s.channel.producer.Finished? && !s.completion.failed && AllSent(s) && BodyEnded(s)
    ensures Enabled(run[i], MarkFlushed) && IsComplete(Apply(run[i], MarkFlushed))
  {
    RunKeepsInv(run, i);
    SentMeansDrained(run[i]);
  }

  // ----- Ends of the body -----

  /** A failed body is finished, a dropped one is closed, and neither delivers anything more. */
  ghost predicate EndsOk(s: State) {
    && (s.completion.failed ==> s.bodyFinished)
    && (!s.bodyAlive ==> s.channel.closed && s.polling.NotPolling?)
    && (s.bodyFinished && s.polling.Polling? ==> s.polling.seen == SawEnd)
  }

  lemma StepKeepsEnds(s: State, step: Step)
    requires EndsOk(s) && Enabled(s, step)
    ensures EndsOk(Apply(s, step))
  {
  }

  ghost predicate Delivered(s: State, frames: nat, received: seq<Item>) {
    EndsOk(s) && s.bodyFinished && |s.frames| == frames && s.received == received
  }

  lemma FinishedStep(s: State, step: Step)
    requires EndsOk(s) && s.bodyFinished && Enabled(s, step)
    ensures Apply(s, step).bodyFinished && |Apply(s, step).frames| == |s.frames|
    ensures Apply(s, step).received == s.received
  {
  }

  lemma EndsPreserved()
    ensures Preserves(Successor, EndsOk)
  {
    forall s, t | EndsOk(s) && Successor(s, t) ensures EndsOk(t) {
      var step :| Enabled(s, step) && t == Apply(s, step);
      StepKeepsEnds(s, step);
    }
  }

  /** After the end of the channel, a producer error or a write timeout has been returned, no
      item is received and no frame emitted any more; a failure is such an end. */
  lemma FinishedDeliversNothing(run: seq<State>, i: nat, j: nat)
    requires IsRun(Init, Successor, run) && i <= j < |run|
    requires run[i].bodyFinished || run[i].completion.failed
    ensures |run[j].frames| == |run[i].frames| && run[j].received == run[i].received && run[j].bodyFinished
  {
    EndsPreserved();
    Later(Successor, EndsOk, run, 0, i);
    var frames, received := |run[i].frames|, run[i].received;
    forall s, t | Delivered(s, frames, received) && Successor(s, t) ensures Delivered(t, frames, received) {
      var step :| Enabled(s, step) && t == Apply(s, step);
      StepKeepsEnds(s, step);
      FinishedStep(s, step);
    }
    Later(Successor, (s: State) => Delivered(s, frames, received), run, i, j);
  }

  /** Once the body is dropped the channel is closed: by `ClosedAcceptsNothing` nothing more is
      accepted. */
  lemma DroppedIsClosed(run: seq<State>, i: nat)
    requires IsRun(Init, Successor, run) && i < |run| && !run[i].bodyAlive
    ensures run[i].channel.closed
  {
    EndsPreserved();
    Later(Successor, EndsOk, run, 0, i);
  }

  // ----- Every upload can complete -----

  function Released(payloads: seq<Payload>): (frames: seq<Frame>)
    ensures |frames| == |payloads|
    ensures forall k :: 0 <= k < |frames| ==> frames[k] == Frame(payloads[k], true)
  {
    seq(|payloads|, k requires 0 <= k < |payloads| => Frame(payloads[k], true))
  }

  function Chunks(payloads: seq<Payload>): (items: seq<Item>)
    ensures |items| == |payloads|
    ensures forall k :: 0 <= k < |items| ==> items[k] == Data(payloads[k])
  {
    seq(|payloads|, k requires 0 <= k < |payloads| => Data(payloads[k]))
  }

  /** The state in which these chunks, and nothing else, have gone all the way through. */
  function Through(capacity: nat, expected: Option<nat>, hasTimeout: bool, payloads: seq<Payload>): State {
    State(capacity, expected, hasTimeout, Channel([], false, Open, 0),
          Completion(Min(Total(payloads), U64_MAX), false, false, 0, false),
          true, false, NotPolling, Released(payloads), Chunks(payloads), Chunks(payloads), false)
  }

  lemma Takes(s: State, step: Step)
    requires Enabled(s, step)
    ensures Leads(Successor, s, Apply(s, step))
  {
    assert Successor(s, Apply(s, step));
    LeadsSelf(Successor, Apply(s, step));
    LeadsStep(Successor, s, Apply(s, step), Apply(s, step));
  }

  /** One chunk on its way: accepted, then emitted. */
  function Accepted(s: State, p: Payload): State {
    s.(channel := s.channel.(queue := [Data(p)], outstanding := 1), accepted := s.accepted + [Data(p)])
  }

  function Emitted(s: State, p: Payload): State {
    s.(channel := s.channel.(outstanding := 1), accepted := s.accepted + [Data(p)],
       received := s.received + [Data(p)], frames := s.frames + [Frame(p, false)],
       completion := s.completion.(inFlight := 1, emitted := Min(s.completion.emitted + |p|, U64_MAX)))
  }

  lemma ChunkIsAccepted(s: State, p: Payload)
    requires s.capacity > 0 && s.channel == Channel([], false, Open, 0)
    ensures Leads(Successor, s, Accepted(s, p))
  {
    Takes(s, Send(Data(p), false));
    assert [] + [Data(p)] == [Data(p)];
  }

  lemma ChunkIsEmitted(s: State, p: Payload)
    requires s.channel == Channel([], false, Open, 0) && s.bodyAlive && !s.bodyFinished && s.polling == NotPolling
    requires s.completion.inFlight == 0
    ensures Leads(Successor, Accepted(s, p), Emitted(s, p))
  {
    var a := Accepted(s, p);
    var b := Apply(a, PollBegin);
    assert b.polling == Polling(Popped(Data(p)));
    Takes(a, PollBegin);
    Takes(b, PollEnd(false));
    assert Apply(b, PollEnd(false)) == Emitted(s, p);
    LeadsTrans(Successor, a, b, Emitted(s, p));
  }

  lemma ChunkGoesThrough(capacity: nat, expected: Option<nat>, hasTimeout: bool, payloads: seq<Payload>, p: Payload)
    requires capacity > 0
    ensures Leads(Successor, Through(capacity, expected, hasTimeout, payloads),
                  Through(capacity, expected, hasTimeout, payloads + [p]))
  {
    var s := Through(capacity, expected, hasTimeout, payloads);
    var t := Through(capacity, expected, hasTimeout, payloads + [p]);
    var e := Emitted(s, p);
    ChunkIsAccepted(s, p);
    ChunkIsEmitted(s, p);
    LeadsTrans(Successor, s, Accepted(s, p), e);
    Takes(e, ReleaseFrame(|payloads|));
    ReleasedIsThrough(capacity, expected, hasTimeout, payloads, p);
    LeadsTrans(Successor, s, e, t);
  }

  lemma ReleasedIsThrough(capacity: nat, expected: Option<nat>, hasTimeout: bool, payloads: seq<Payload>, p: Payload)
    ensures var e := Emitted(Through(capacity, expected, hasTimeout, payloads), p);
            && Enabled(e, ReleaseFrame(|payloads|))
            && Apply(e, ReleaseFrame(|payloads|)) == Through(capacity, expected, hasTimeout, payloads + [p])
  {
    var e := Emitted(Through(capacity, expected, hasTimeout, payloads), p);
    var t := Through(capacity, expected, hasTimeout, payloads + [p]);
    var r := Apply(e, ReleaseFrame(|payloads|));
    assert (payloads + [p])[..|payloads|] == payloads;
    assert r.frames == t.frames;
    assert r.accepted == t.accepted && r.received == t.received;
  }

  lemma {:induction false} AllGoThrough(capacity: nat, expected: Option<nat>, hasTimeout: bool, payloads: seq<Payload>)
    requires capacity > 0
    ensures Leads(Successor, Through(capacity, expected, hasTimeout, []),
                  Through(capacity, expected, hasTimeout, payloads))
  {
    if payloads == [] {
      LeadsSelf(Successor, Through(capacity, expected, hasTimeout, []));
    } else {
      var front, p := payloads[..|payloads| - 1], payloads[|payloads| - 1];
      assert payloads == front + [p];
      AllGoThrough(capacity, expected, hasTimeout, front);
      ChunkGoesThrough(capacity, expected, hasTimeout, front, p);
      LeadsTrans(Successor, Through(capacity, expected, hasTimeout, []),
                 Through(capacity, expected, hasTimeout, front), Through(capacity, expected, hasTimeout, payloads));
    }
  }

  /** The body after its producer finished, its end was polled and the transport flushed. */
  function Done(s: State): State {
    s.(channel := s.channel.(closed := true, producer := Finished), bodyFinished := true,
       completion := s.completion.(reachedEof := true, flushed := true))
  }

  lemma ThroughEnds(s: State)
    requires s.channel == Channel([], false, Open, 0) && s.bodyAlive && !s.bodyFinished && s.polling == NotPolling
    requires s.completion.inFlight == 0 && (s.expected.Some? ==> s.completion.emitted == s.expected.value)
    ensures Leads(Successor, s, Done(s))
  {
    var a := Apply(s, Finish);
    var b := Apply(a, PollBegin);
    var c := Apply(b, PollEnd(false));
    Takes(s, Finish);
    Takes(a, PollBegin);
    Takes(b, PollEnd(false));
    Takes(c, MarkFlushed);
    assert Apply(c, MarkFlushed) == Done(s);
    LeadsTrans(Successor, s, a, b);
    LeadsTrans(Successor, s, b, c);
    LeadsTrans(Successor, s, c, Done(s));
  }

  /** For every sequence of chunks, with its length declared or unknown, with or without a write
      timeout and whatever the capacity, a run from the start sends exactly these chunks and
      ends complete. */
  lemma EveryUploadCanComplete(capacity: nat, declared: bool, hasTimeout: bool, payloads: seq<Payload>)
    returns (s: State, t: State)
    requires capacity > 0 && (declared ==> 0 < Total(payloads) <= U64_MAX)
    ensures Init(s) && s.capacity == capacity && s.hasTimeout == hasTimeout
    ensures s.expected == if declared then Some(Total(payloads)) else None
    ensures Leads(Successor, s, t) && IsComplete(t) && Payloads(t.frames) == payloads
  {
    var expected := if declared then Some(Total(payloads)) else None;
    s := Through(capacity, expected, hasTimeout, []);
    var u := Through(capacity, expected, hasTimeout, payloads);
    AllGoThrough(capacity, expected, hasTimeout, payloads);
    ThroughEnds(u);
    t := Done(u);
    LeadsTrans(Successor, s, u, t);
    assert Payloads(t.frames) == payloads;
  }
}
