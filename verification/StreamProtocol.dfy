/**
 * One threaded provider stream (runtime/provider_execution.py): a producer thread fills a queue, a single consumer
 * drains it, and a canceller may act at any time. Each atomic action is one step; clocks and the provider are choices
 * made by the step's arguments.
 */
module StreamProtocol {
  import opened Wrappers

  datatype Item = Chunk(text: string) | EndOfStream | Cancelled | Error(notClosed: bool)

  /** What the provider's iterator does when asked for its next chunk. */
  datatype Offer = Yields(text: string) | Ends | Fails(notClosed: bool)

  datatype Producer =
    | Pulling
    | Checking(text: string)
    | Putting(text: string)
    | Rechecking
    | ClosingIterator
    | Stopped

  datatype Outcome = Completed | CallCancelled | TimedOut | Failed | BoundaryNotClosed

  datatype Consumer =
    | Polling
    | Waiting
    | Took(item: Item)
    | Yielding(text: string)
    | Draining(reason: Outcome)
    | Finished(outcome: Outcome)

  /**
   * `enqueued`, `taken` and `yielded` record the whole history of puts, gets and yields; `late` counts yields after
   * cancellation.
   */
  datatype State = State(
    queue: seq<Item>,
    producer: Producer,
    consumer: Consumer,
    cancelRequested: bool,
    boundaryClosed: Option<bool>,
    enqueued: seq<Item>,
    taken: seq<Item>,
    yielded: seq<string>,
    late: nat)

  const INITIAL := State([], Pulling, Polling, false, None, [], [], [], 0)

  datatype Event =
    | Provide(offer: Offer)
    | Produce(closeFault: Option<bool>)
    | Consume(expired: bool)
    | Cancel

  predicate IsTerminal(i: Item) {
    !i.Chunk?
  }

  function Put(s: State, i: Item, next: Producer): State {
    s.(queue := s.queue + [i], enqueued := s.enqueued + [i], producer := next)
  }

  /** The producer asks its iterator for the next chunk. */
  function ProvideStep(s: State, offer: Offer): State {
    if s.producer != Pulling then s
    else
      match offer
      case Yields(text) => s.(producer := Checking(text))
      case Ends => Put(s, EndOfStream, Stopped)
      case Fails(notClosed) => Put(s, Error(notClosed), Stopped)
  }

  /** Any other producer action; closing the iterator may itself fail with an error of its own. */
  function ProduceStep(s: State, closeFault: Option<bool>): State {
    match s.producer
    case Pulling => s
    case Checking(text) => s.(producer := if s.cancelRequested then ClosingIterator else Putting(text))
    case Putting(text) => Put(s, Chunk(text), Rechecking)
    case Rechecking => s.(producer := if s.cancelRequested then ClosingIterator else Pulling)
    case ClosingIterator => Put(s, if closeFault.Some? then Error(closeFault.value) else Cancelled, Stopped)
    case Stopped => s
  }

  function Take(s: State, next: Consumer): State
    requires |s.queue| > 0
  {
    s.(queue := s.queue[1..], taken := s.taken + [s.queue[0]], consumer := next)
  }

  function ItemOutcome(i: Item): Outcome {
    match i
    case EndOfStream => Completed
    case Cancelled => CallCancelled
    case _ => Failed
  }

  /**
   * `expired` says whether the deadline in force has passed when an empty queue, or the drain loop, looks at the clock.
   */
  function ConsumeStep(s: State, expired: bool): State {
    match s.consumer
    case Polling => if s.cancelRequested then s.(consumer := Draining(CallCancelled)) else s.(consumer := Waiting)
    case Waiting =>
      if |s.queue| > 0 then Take(s, Took(s.queue[0]))
      else if expired then s.(consumer := Draining(TimedOut))
      else s.(consumer := Polling)
    case Took(item) =>
      if item.Chunk? then
        if s.cancelRequested then s.(consumer := Draining(CallCancelled)) else s.(consumer := Yielding(item.text))
      else s.(consumer := Finished(ItemOutcome(item)), boundaryClosed := Some(true))
    case Yielding(text) =>
      s.(yielded := s.yielded + [text], late := if s.cancelRequested then s.late + 1 else s.late, consumer := Polling)
    case Draining(reason) =>
      if expired then s.(consumer := Finished(BoundaryNotClosed), boundaryClosed := Some(false))
      else if |s.queue| == 0 then s
      else if s.queue[0].Chunk? then Take(s, s.consumer)
      else
        var end := if s.queue[0] == Error(true) then BoundaryNotClosed else reason;
        Take(s, Finished(end)).(boundaryClosed := Some(true))
    case Finished(_) => s
  }

  function Step(s: State, e: Event): State {
    match e
    case Provide(offer) => ProvideStep(s, offer)
    case Produce(closeFault) => ProduceStep(s, closeFault)
    case Consume(expired) => ConsumeStep(s, expired)
    case Cancel => s.(cancelRequested := true)
  }

  // ---------------------------------------------------------------- the shared object

  class StreamCall {
    var queue: seq<Item>
    var producer: Producer
    var consumer: Consumer
    var cancelRequested: bool
    var boundaryClosed: Option<bool>
    ghost var enqueued: seq<Item>
    ghost var taken: seq<Item>
    ghost var yielded: seq<string>
    ghost var late: nat

    ghost function Current(): State
      reads this
    {
      State(queue, producer, consumer, cancelRequested, boundaryClosed, enqueued, taken, yielded, late)
    }

    constructor ()
      ensures Current() == INITIAL
    {
      queue, producer, consumer, cancelRequested, boundaryClosed := [], Pulling, Polling, false, None;
      enqueued, taken, yielded, late := [], [], [], 0;
    }

    method PutItem(i: Item)
      modifies this`queue, this`enqueued
      ensures queue == old(queue) + [i] && enqueued == old(enqueued) + [i]
    {
      queue := queue + [i];
      enqueued := enqueued + [i];
    }

    method GetItem() returns (i: Item)
      requires |queue| > 0
      modifies this`queue, this`taken
      ensures i == old(queue)[0] && queue == old(queue)[1..] && taken == old(taken) + [i]
    {
      i := queue[0];
      queue := queue[1..];
      taken := taken + [i];
    }

    method RequestCancel()
      modifies this`cancelRequested
      ensures Current() == Step(old(Current()), Cancel)
    {
      cancelRequested := true;
    }

    method PullChunk(offer: Offer)
      requires producer == Pulling
      modifies this
      ensures Current() == Step(old(Current()), Provide(offer))
    {
      match offer
      case Yields(text) =>
        producer := Checking(text);
      case Ends =>
        PutItem(EndOfStream);
        producer := Stopped;
      case Fails(notClosed) =>
        PutItem(Error(notClosed));
        producer := Stopped;
    }

    method AdvanceProducer(closeFault: Option<bool>)
      modifies this
      ensures Current() == Step(old(Current()), Produce(closeFault))
    {
      match producer
      case Pulling =>
      case Checking(text) =>
        producer := if cancelRequested then ClosingIterator else Putting(text);
      case Putting(text) =>
        PutItem(Chunk(text));
        producer := Rechecking;
      case Rechecking =>
        producer := if cancelRequested then ClosingIterator else Pulling;
      case ClosingIterator =>
        PutItem(if closeFault.Some? then Error(closeFault.value) else Cancelled);
        producer := Stopped;
      case Stopped =>
    }

    /** One round of the boundary collector's loop. */
    method CollectBoundary(reason: Outcome, expired: bool)
      requires consumer == Draining(reason)
      modifies this
      ensures Current() == Step(old(Current()), Consume(expired))
    {
      if expired {
        boundaryClosed := Some(false);
        consumer := Finished(BoundaryNotClosed);
        return;
      }
      if |queue| == 0 {
        return;
      }
      var item := GetItem();
      if item.Chunk? {
        return;
      }
      boundaryClosed := Some(true);
      consumer := Finished(if item == Error(true) then BoundaryNotClosed else reason);
    }

    method AdvanceConsumer(expired: bool)
      modifies this
      ensures Current() == Step(old(Current()), Consume(expired))
    {
      match consumer
      case Polling =>
        consumer := if cancelRequested then Draining(CallCancelled) else Waiting;
      case Waiting =>
        if |queue| > 0 {
          var item := GetItem();
          consumer := Took(item);
        } else {
          consumer := if expired then Draining(TimedOut) else Polling;
        }
      case Took(item) =>
        if item.Chunk? {
          consumer := if cancelRequested then Draining(CallCancelled) else Yielding(item.text);
        } else {
          boundaryClosed := Some(true);
          consumer := Finished(ItemOutcome(item));
        }
      case Yielding(text) =>
        yielded := yielded + [text];
        late := if cancelRequested then late + 1 else late;
        consumer := Polling;
      case Draining(reason) =>
        CollectBoundary(reason, expired);
      case Finished(_) =>
    }
  }

  // ---------------------------------------------------------------- the invariant

  function Texts(items: seq<Item>): seq<string> {
    if |items| == 0 then []
    else Texts(items[..|items| - 1]) + (if items[|items| - 1].Chunk? then [items[|items| - 1].text] else [])
  }

  ghost predicate OnlyChunks(items: seq<Item>) {
    forall i | 0 <= i < |items| :: items[i].Chunk?
  }

  /** Chunks only, then, once the producer has stopped, one terminal item. */
  ghost predicate ProducerOk(s: State) {
    if s.producer == Stopped then
      |s.enqueued| > 0 && OnlyChunks(s.enqueued[..|s.enqueued| - 1]) && IsTerminal(s.enqueued[|s.enqueued| - 1])
    else OnlyChunks(s.enqueued)
  }

  /** Nobody gives up as cancelled unless cancellation was requested. */
  ghost predicate CancelOk(s: State) {
    && (s.producer == ClosingIterator ==> s.cancelRequested)
    && (Cancelled in s.enqueued ==> s.cancelRequested)
    && (s.consumer == Finished(CallCancelled) ==> s.cancelRequested)
  }

  /** The chunk taken but not yet yielded. */
  function Held(c: Consumer): seq<string> {
    match c
    case Took(item) => if item.Chunk? then [item.text] else []
    case Yielding(text) => [text]
    case _ => []
  }

  /** The last item taken, when the consumer has seen the end of the stream. */
  ghost predicate SawEnd(s: State) {
    |s.taken| > 0 && IsTerminal(s.taken[|s.taken| - 1])
  }

  ghost predicate ConsumerOk(s: State) {
    match s.consumer
    case Polling => OnlyChunks(s.taken) && s.yielded == Texts(s.taken)
    case Waiting => OnlyChunks(s.taken) && s.yielded == Texts(s.taken)
    case Took(item) => |s.taken| > 0 && s.taken[|s.taken| - 1] == item && s.yielded + Held(s.consumer) == Texts(s.taken)
                       && (item.Chunk? ==> OnlyChunks(s.taken))
    case Yielding(text) => OnlyChunks(s.taken) && s.yielded + [text] == Texts(s.taken)
    case Draining(reason) => OnlyChunks(s.taken) && s.yielded <= Texts(s.taken) && reason in {CallCancelled, TimedOut}
                             && (reason == CallCancelled ==> s.cancelRequested)
    case Finished(outcome) =>
      && s.yielded <= Texts(s.taken)
      && s.boundaryClosed.Some? && (s.boundaryClosed == Some(true) ==> SawEnd(s))
      && (outcome == Completed ==> SawEnd(s) && s.taken[|s.taken| - 1] == EndOfStream && s.yielded == Texts(s.taken))
      && (s.boundaryClosed == Some(false) ==> outcome == BoundaryNotClosed)
  }

  ghost predicate LateOk(s: State) {
    && s.late <= 1
    && (s.late == 1 ==> s.cancelRequested && (s.consumer == Polling || s.consumer.Draining? || s.consumer.Finished?))
  }

  ghost predicate Inv(s: State) {
    && s.taken + s.queue == s.enqueued
    && ProducerOk(s)
    && ConsumerOk(s)
    && LateOk(s)
    && CancelOk(s)
    && (s.boundaryClosed.Some? ==> s.consumer.Finished?)
  }

  lemma TextsSnoc(items: seq<Item>, i: Item)
    ensures Texts(items + [i]) == Texts(items) + (if i.Chunk? then [i.text] else [])
  {
    assert (items + [i])[..|items|] == items;
  }

  /** What was taken out came first among what was put in; a terminal item taken is the last ever put. */
  lemma TakeKeepsOrder(s: State)
    requires Inv(s) && |s.queue| > 0
    ensures (s.taken + [s.queue[0]]) + s.queue[1..] == s.enqueued
    ensures s.queue[0].Chunk? ==> OnlyChunks(s.taken) ==> OnlyChunks(s.taken + [s.queue[0]])
  {
    assert s.queue == [s.queue[0]] + s.queue[1..];
  }

  lemma PutKeeps(s: State, i: Item, next: Producer)
    requires Inv(s) && s.producer != Stopped && (IsTerminal(i) <==> next == Stopped)
    requires next == ClosingIterator || i == Cancelled ==> s.cancelRequested
    ensures Inv(Put(s, i, next))
  {
    var after := Put(s, i, next);
    assert after.enqueued[..|after.enqueued| - 1] == s.enqueued;
    assert s.taken + (s.queue + [i]) == (s.taken + s.queue) + [i];
  }

  lemma ProducerStepKeeps(s: State, e: Event)
    requires Inv(s) && (e.Provide? || e.Produce?)
    ensures Inv(Step(s, e))
  {
    match e
    case Provide(offer) =>
      if s.producer == Pulling {
        match offer
        case Yields(_) =>
        case Ends => PutKeeps(s, EndOfStream, Stopped);
        case Fails(notClosed) => PutKeeps(s, Error(notClosed), Stopped);
      }
    case Produce(closeFault) =>
      match s.producer
      case Putting(text) => PutKeeps(s, Chunk(text), Rechecking);
      case ClosingIterator => PutKeeps(s, if closeFault.Some? then Error(closeFault.value) else Cancelled, Stopped);
      case _ =>
  }

  /** Taking the item at the head of the queue, for any next consumer state that fits it. */
  lemma TakeKeeps(s: State, next: Consumer, closed: Option<bool>)
    requires Inv(s) && |s.queue| > 0
    requires ConsumerOk(Take(s, next).(boundaryClosed := closed)) && (closed.Some? ==> next.Finished?)
    requires s.late == 1 ==> next.Draining? || next.Finished?
    requires next == Finished(CallCancelled) ==> s.cancelRequested
    ensures Inv(Take(s, next).(boundaryClosed := closed))
  {
    TakeKeepsOrder(s);
  }

  lemma WaitingTakes(s: State)
    requires Inv(s) && s.consumer == Waiting && |s.queue| > 0
    ensures Inv(Take(s, Took(s.queue[0])))
  {
    TextsSnoc(s.taken, s.queue[0]);
    TakeKeepsOrder(s);
    TakeKeeps(s, Took(s.queue[0]), None);
  }

  lemma DrainingTakes(s: State, expired: bool)
    requires Inv(s) && s.consumer.Draining? && |s.queue| > 0 && !expired
    ensures Inv(ConsumeStep(s, expired))
  {
    var item := s.queue[0];
    TextsSnoc(s.taken, item);
    TakeKeepsOrder(s);
    if item.Chunk? {
      TakeKeeps(s, s.consumer, None);
    } else {
      TakeKeeps(s, Finished(if item == Error(true) then BoundaryNotClosed else s.consumer.reason), Some(true));
    }
  }

  lemma ConsumerStepKeeps(s: State, expired: bool)
    requires Inv(s)
    ensures Inv(Step(s, Consume(expired)))
  {
    match s.consumer
    case Waiting =>
      if |s.queue| > 0 {
        WaitingTakes(s);
      }
    case Draining(_) =>
      if |s.queue| > 0 && !expired {
        DrainingTakes(s, expired);
      }
    case Took(item) => TookSteps(s, expired);
    case _ =>
  }

  lemma TookSteps(s: State, expired: bool)
    requires Inv(s) && s.consumer.Took?
    ensures Inv(ConsumeStep(s, expired))
  {
    var n := |s.taken| - 1;
    assert s.enqueued[n] == s.taken[n] == s.consumer.item;
  }

  lemma StepKeeps(s: State, e: Event)
    requires Inv(s)
    ensures Inv(Step(s, e))
  {
    match e
    case Provide(_) => ProducerStepKeeps(s, e);
    case Produce(_) => ProducerStepKeeps(s, e);
    case Consume(expired) => ConsumerStepKeeps(s, expired);
    case Cancel =>
  }

  function After(s: State, events: seq<Event>): State {
    if |events| == 0 then s else Step(After(s, events[..|events| - 1]), events[|events| - 1])
  }

  /** Every interleaving of producer, consumer and canceller keeps the invariant. */
  lemma {:induction false} RunKeeps(s: State, events: seq<Event>)
    requires Inv(s)
    ensures Inv(After(s, events))
  {
    if |events| > 0 {
      RunKeeps(s, events[..|events| - 1]);
      StepKeeps(After(s, events[..|events| - 1]), events[|events| - 1]);
    }
  }

  // ---------------------------------------------------------------- what every interleaving satisfies

  lemma {:induction false} TextsPrefix(a: seq<Item>, b: seq<Item>)
    ensures Texts(a) <= Texts(a + b)
  {
    if |b| == 0 {
      assert a + b == a;
    } else {
      assert (a + b)[..|a + b| - 1] == a + b[..|b| - 1];
      TextsPrefix(a, b[..|b| - 1]);
    }
  }

  /** At most one terminal item is ever put, and nothing after it. */
  lemma {:induction false} OneTerminalItem(events: seq<Event>)
    ensures var s := After(INITIAL, events);
            forall i | 0 <= i < |s.enqueued| && IsTerminal(s.enqueued[i]) ::
                i == |s.enqueued| - 1 && s.producer == Stopped
  {
    RunKeeps(INITIAL, events);
    TerminalIsLast(After(INITIAL, events));
  }

  lemma TerminalIsLast(s: State)
    requires ProducerOk(s)
    ensures forall i | 0 <= i < |s.enqueued| && IsTerminal(s.enqueued[i]) ::
            i == |s.enqueued| - 1 && s.producer == Stopped
  {
    if s.producer == Stopped {
      var front := s.enqueued[..|s.enqueued| - 1];
      assert forall i | 0 <= i < |front| :: front[i] == s.enqueued[i];
    }
  }

  /** Yielded chunks are an in-order prefix of the chunks produced, and all of them when the call completes. */
  lemma YieldsInOrder(events: seq<Event>)
    ensures var s := After(INITIAL, events);
            && s.yielded <= Texts(s.enqueued)
            && (s.consumer == Finished(Completed) ==> s.yielded == Texts(s.enqueued))
  {
    RunKeeps(INITIAL, events);
    var s := After(INITIAL, events);
    TextsPrefix(s.taken, s.queue);
    if s.consumer == Finished(Completed) {
      EndTaken(s);
    }
  }

  lemma EndTaken(s: State)
    requires Inv(s) && SawEnd(s)
    ensures s.queue == [] && s.producer == Stopped && s.taken == s.enqueued
  {
    var n := |s.taken| - 1;
    assert s.enqueued[n] == s.taken[n];
  }

  /** However late the canceller acts, at most one chunk is handed out after it. */
  lemma AtMostOneLateChunk(events: seq<Event>)
    ensures After(INITIAL, events).late <= 1
  {
    RunKeeps(INITIAL, events);
  }

  /** Once the boundary is reported closed, the queue is empty and stays so: the producer can put nothing more. */
  lemma ClosedMeansClosed(events: seq<Event>, more: seq<Event>)
    requires After(INITIAL, events).boundaryClosed == Some(true)
    ensures var s := After(After(INITIAL, events), more);
            s.queue == [] && s.producer == Stopped && s.enqueued == After(INITIAL, events).enqueued
  {
    RunKeeps(INITIAL, events);
    EndTaken(After(INITIAL, events));
    QuietForGood(After(INITIAL, events), more);
  }

  lemma {:induction false} QuietForGood(s: State, more: seq<Event>)
    requires Inv(s) && s.queue == [] && s.producer == Stopped && s.consumer.Finished?
    ensures var t := After(s, more);
            t.queue == [] && t.producer == Stopped && t.consumer == s.consumer && t.enqueued == s.enqueued
  {
    if |more| > 0 {
      QuietForGood(s, more[..|more| - 1]);
    }
  }

  /**
   * How a call ended: it reports its boundary as closed or not, fails as not closed if it could not be, is cancelled
   * only if someone cancelled, and completes only on the producer's own end of stream.
   */
  lemma OutcomeMeaning(events: seq<Event>)
    requires After(INITIAL, events).consumer.Finished?
    ensures var s := After(INITIAL, events);
            && s.boundaryClosed.Some?
            && (s.boundaryClosed == Some(false) ==> s.consumer == Finished(BoundaryNotClosed))
            && (s.consumer == Finished(CallCancelled) ==> s.cancelRequested)
            && (s.consumer == Finished(Completed) ==> EndOfStream in s.enqueued)
  {
    RunKeeps(INITIAL, events);
    var s := After(INITIAL, events);
    if s.consumer == Finished(Completed) {
      EndTaken(s);
    }
  }
}
